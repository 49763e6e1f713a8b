/**
 * Every run of a Paxos cluster keeps agreement.
 *
 * The network is a bag of messages in flight.  A message may be delivered in any order, lost,
 * or duplicated, but only a node can put a new one there.
 */
module PaxosCluster {
  import opened Quorums
  import opened Bits
  import opened PaxosModel
  import P = PaxosProtocol

  // ----- Runs -----

  datatype Cluster = Cluster(size: nat, nodes: map<Id, NodeState>, network: multiset<Message>)

  datatype Event =
    | Proposal(id: Id, val: nat)
    | Clock(id: Id)
    | Drain(id: Id)
    | Deliver(m: Message)
    | Lose(m: Message)
    | Duplicate(m: Message)

  predicate Named(size: nat, id: Id) { 1 <= id <= size }

  function Ids(size: nat): set<Id> { set id: Id | 1 <= id <= size && Named(size, id) }

  /** Nodes `1..size`, none of which has done anything yet. */
  predicate Init(c: Cluster) {
    && 1 <= c.size <= WIDTH && c.network == multiset{} && c.nodes.Keys == Ids(c.size)
    && forall v :: v in c.nodes ==> c.nodes[v] == NewNode(v, c.size, c.nodes[v].timeout)
  }

  predicate Callable(c: Cluster, id: Id) {
    id in c.nodes && Valid(c.nodes[id])
  }

  predicate Enabled(c: Cluster, e: Event) {
    match e
    case Proposal(id, _) => Callable(c, id)
    case Clock(id) => Callable(c, id)
    case Drain(id) => Callable(c, id)
    case Deliver(m) => m in c.network && Callable(c, m.to) && NodeId(m.from)
    case Lose(m) => m in c.network
    case Duplicate(m) => m in c.network
  }

  function Next(c: Cluster, e: Event): Cluster
    requires Enabled(c, e)
  {
    match e
    case Proposal(id, val) => c.(nodes := c.nodes[id := Propose(c.nodes[id], val)])
    case Clock(id) => c.(nodes := c.nodes[id := Tick(c.nodes[id])])
    case Drain(id) => c.(nodes := c.nodes[id := c.nodes[id].(outbound := [])], network := c.network + multiset(c.nodes[id].outbound))
    case Deliver(m) => c.(nodes := c.nodes[m.to := Step(c.nodes[m.to], m)], network := c.network - multiset{m})
    case Lose(m) => c.(network := c.network - multiset{m})
    case Duplicate(m) => c.(network := c.network + multiset{m})
  }

  ghost predicate Run(states: seq<Cluster>, events: seq<Event>) {
    && |states| == |events| + 1 && Init(states[0])
    && (forall i :: 0 <= i < |events| ==> Enabled(states[i], events[i]) && states[i + 1] == Next(states[i], events[i]))
  }

  // ----- The protocol behind a node -----

  function VotesOf(accepts: seq<Acceptance>): map<nat, nat> {
    if accepts == [] then map[]
    else
      var last := accepts[|accepts| - 1];
      VotesOf(accepts[..|accepts| - 1])[last.num := last.val]
  }

  lemma {:induction false} VotesAre(accepts: seq<Acceptance>, b: nat)
    ensures b in VotesOf(accepts) <==> exists i :: 0 <= i < |accepts| && accepts[i].num == b
    ensures b in VotesOf(accepts) ==> Acceptance(b, VotesOf(accepts)[b]) in accepts
  {
    if accepts != [] {
      var k := |accepts| - 1;
      VotesAre(accepts[..k], b);
      if accepts[k].num == b { assert accepts[k] in accepts; }
      if b in VotesOf(accepts[..k]) && accepts[k].num != b {
        assert Acceptance(b, VotesOf(accepts[..k])[b]) in accepts[..k];
      }
    }
  }

  /** The acceptor's fields summarise its history. */
  predicate Summarised(promised: nat, num: nat, val: nat, has: bool, votes: map<nat, nat>) {
    && (has ==> num <= promised && num in votes && votes[num] == val)
    && (forall b :: b in votes ==> has && b <= num)
  }

  predicate AcceptorOk(n: NodeState) {
    Summarised(n.promised, n.acceptedNum, n.acceptedVal, n.hasAccepted, VotesOf(n.accepts))
  }

  predicate IsNumber(b: nat, round: nat, size: nat, id: Id) { b == NumberOf(round, size, id) }

  /** `b` is a number that node `id` may use. */
  ghost predicate Owned(b: nat, size: nat, id: Id) { exists round: nat :: IsNumber(b, round, size, id) }

  predicate NumberIs(b: nat, round: nat, size: nat, id: Id) {
    if round == 0 then b == 0 else IsNumber(b, round, size, id)
  }

  predicate Numbered(n: NodeState) {
    NumberIs(n.myNum, n.round, n.size, n.id)
  }

  /** Nothing with this node's residue was proposed beyond its current number. */
  ghost predicate OwnNumbers(s: P.State, id: Id, size: nat, myNum: nat) {
    forall b :: b in s.proposals && Owned(b, size, id) ==> b <= myNum
  }

  /** A promise and what it reported. */
  ghost predicate Reported(s: P.State, hasBest: bool, bestNum: nat, bestVal: nat, b: nat) {
    hasBest ==> bestNum < b && bestNum in s.proposals && s.proposals[bestNum] == bestVal
  }

  ghost predicate AllPledged(s: P.State, q: set<Id>, b: nat, hasBest: bool, best: nat) {
    forall a :: a in q ==> P.Pledged(s, a, b, hasBest, best)
  }

  ghost predicate AllVoted(s: P.State, q: set<Id>, b: nat) {
    forall a :: a in q ==> a in s.acceptors && b in s.acceptors[a].votes
  }

  ghost predicate ProposerOk(s: P.State, n: NodeState) {
    match n.phase
    case Idle => true
    case Preparing =>
      && 0 < n.round && n.myNum !in s.proposals && n.promiseMask < Pow2(WIDTH)
      && AllPledged(s, Members(n.promiseMask), n.myNum, n.hasBest, n.bestNum)
      && Reported(s, n.hasBest, n.bestNum, n.bestVal, n.myNum)
    case Accepting => Voting(s, n)
    case Decided => Voting(s, n) && IsQuorum(s.acceptors.Keys, Members(n.acceptMask))
  }

  ghost predicate Voting(s: P.State, n: NodeState) {
    && n.myNum in s.proposals && s.proposals[n.myNum] == n.myVal && n.acceptMask < Pow2(WIDTH)
    && AllVoted(s, Members(n.acceptMask), n.myNum)
  }

  ghost predicate Known(s: P.State, m: Message) {
    && m.from in s.acceptors && m.to in s.acceptors && m.from != m.to
    && match m.kind
       case Prepare => true
       case Promise => m.ok ==>
         P.Pledged(s, m.from, m.num, m.hasAccepted, m.acceptedNum) && Reported(s, m.hasAccepted, m.acceptedNum, m.acceptedVal, m.num)
       case Accept => m.num in s.proposals && s.proposals[m.num] == m.val
       case Accepted => m.ok ==> m.num in s.acceptors[m.from].votes
  }

  ghost predicate AllKnown(s: P.State, ms: seq<Message>) {
    forall m :: m in ms ==> Known(s, m)
  }

  function AsSet(ids: seq<Id>): set<Id> { set p | p in ids }

  predicate PeeredAs(id: Id, size: nat, peers: seq<Id>) {
    && 1 <= id <= size <= WIDTH && AsSet(peers) == Ids(size) - {id}
    && forall i, j :: 0 <= i < j < |peers| ==> peers[i] != peers[j]
  }

  predicate Peered(n: NodeState) {
    PeeredAs(n.id, n.size, n.peers)
  }

  /** Every acceptance carries the value that was put to the vote under its number. */
  ghost predicate Faithful(s: P.State, accepts: seq<Acceptance>) {
    forall x :: x in accepts ==> x.num in s.proposals && s.proposals[x.num] == x.val
  }

  lemma FaithfulAfter(s: P.State, t: P.State, accepts: seq<Acceptance>)
    requires P.Evolves(s, t) && Faithful(s, accepts)
    ensures Faithful(t, accepts)
  {
  }

  ghost predicate Tracks(s: P.State, n: NodeState) {
    && Peered(n) && s.acceptors.Keys == Ids(n.size) && n.id in s.acceptors
    && s.acceptors[n.id] == P.Acceptor(n.promised, VotesOf(n.accepts))
    && AcceptorOk(n) && Faithful(s, n.accepts) && Numbered(n) && OwnNumbers(s, n.id, n.size, n.myNum) && ProposerOk(s, n)
    && AllKnown(s, n.outbound)
  }

  /** Node `v` moved the protocol from `s` to `t`. */
  ghost predicate Advances(s: P.State, t: P.State, v: Id, size: nat) {
    && P.Inv(s) && P.Inv(t) && P.Evolves(s, t)
    && (forall w :: w in s.acceptors && w != v ==> t.acceptors[w] == s.acceptors[w])
    && (forall b :: b in t.proposals && b !in s.proposals ==> Owned(b, size, v))
  }

  lemma Stays(s: P.State, v: Id, size: nat)
    requires P.Inv(s)
    ensures Advances(s, s, v, size)
  {
  }

  lemma AdvancesFurther(s: P.State, t: P.State, u: P.State, v: Id, size: nat)
    requires Advances(s, t, v, size) && Advances(t, u, v, size)
    ensures Advances(s, u, v, size)
  {
    P.EvolvesFurther(s, t, u);
  }

  // ----- Facts outlive steps -----

  lemma KnownAfter(s: P.State, t: P.State, m: Message)
    requires P.Evolves(s, t) && Known(s, m)
    ensures Known(t, m)
  {
    if m.kind == Promise && m.ok { P.PledgedAfter(s, t, m.from, m.num, m.hasAccepted, m.acceptedNum); }
    assert P.Moves(s.acceptors[m.from], t.acceptors[m.from]);
  }

  lemma AllKnownAfter(s: P.State, t: P.State, ms: seq<Message>)
    requires P.Evolves(s, t) && AllKnown(s, ms)
    ensures AllKnown(t, ms)
  {
    hide Known, P.Evolves;
    forall m | m in ms ensures Known(t, m) { KnownAfter(s, t, m); }
  }

  lemma VotedAfter(s: P.State, t: P.State, q: set<Id>, b: nat)
    requires P.Evolves(s, t) && AllVoted(s, q, b)
    ensures AllVoted(t, q, b)
  {
    forall a | a in q ensures a in t.acceptors && b in t.acceptors[a].votes { assert P.Moves(s.acceptors[a], t.acceptors[a]); }
  }

  lemma PledgesAfter(s: P.State, t: P.State, q: set<Id>, b: nat, hasBest: bool, best: nat)
    requires P.Evolves(s, t) && AllPledged(s, q, b, hasBest, best)
    ensures AllPledged(t, q, b, hasBest, best)
  {
    hide P.Pledged, P.Evolves;
    forall a | a in q ensures P.Pledged(t, a, b, hasBest, best) { P.PledgedAfter(s, t, a, b, hasBest, best); }
  }

  lemma ProposerAfter(s: P.State, t: P.State, n: NodeState)
    requires P.Evolves(s, t) && ProposerOk(s, n) && (n.phase == Preparing ==> n.myNum !in t.proposals)
    ensures ProposerOk(t, n)
  {
    if n.phase == Preparing {
      PledgesAfter(s, t, Members(n.promiseMask), n.myNum, n.hasBest, n.bestNum);
    } else if n.phase != Idle {
      VotedAfter(s, t, Members(n.acceptMask), n.myNum);
    }
  }

  // ----- Numbers -----

  /** Distinct nodes use distinct numbers. */
  lemma OwnersDiffer(b: nat, size: nat, v: Id, w: Id)
    requires 1 <= v <= size && 1 <= w <= size && Owned(b, size, v) && Owned(b, size, w)
    ensures v == w
  {
    hide NumberOf;
    var r: nat :| IsNumber(b, r, size, v);
    var q: nat :| IsNumber(b, q, size, w);
    if r < q { LaterRound(r, q, size, v, w); } else if q < r { LaterRound(q, r, size, w, v); } else { SameRound(r, size, v, w); }
  }

  lemma LaterRound(r: nat, q: nat, size: nat, v: Id, w: Id)
    requires r < q && v <= size && 1 <= w
    ensures NumberOf(r, size, v) < NumberOf(q, size, w)
  {
    MulGrows(r + 1, q, size);
    assert (r + 1) * size == r * size + size;
  }

  lemma SameRound(r: nat, size: nat, v: Id, w: Id)
    ensures NumberOf(r, size, v) == NumberOf(r, size, w) <==> v == w
  {
  }

  /** The number of a new round is above the old one and above every promise made. */
  lemma NumberGrows(round: nat, next: nat, size: nat, id: Id, myNum: nat, promised: nat)
    requires 1 <= id <= size && NumberIs(myNum, round, size, id) && round < next && promised / size < next
    ensures NumberOf(next, size, id) > myNum && NumberOf(next, size, id) > promised
    ensures NumberIs(NumberOf(next, size, id), next, size, id) && Owned(NumberOf(next, size, id), size, id)
  {
    assert IsNumber(NumberOf(next, size, id), next, size, id);
    MulGrows(round + 1, next, size);
    assert (round + 1) * size == round * size + size;
    MulGrows(promised / size + 1, next, size);
    DivBound(promised, size);
  }

  lemma DivBound(x: nat, d: nat)
    requires 0 < d
    ensures x < (x / d + 1) * d
  {
    assert x == (x / d) * d + x % d;
  }

  lemma MulGrows(a: nat, b: nat, c: nat)
    requires a <= b
    ensures a * c <= b * c
  {
  }

  lemma {:induction false} IdsCount(size: nat)
    ensures |Ids(size)| == size
  {
    if size == 0 {
      assert Ids(0) == {};
    } else {
      IdsCount(size - 1);
      assert Ids(size) == Ids(size - 1) + {size};
    }
  }

  /** Counting mask bits is counting a majority, for masks of existing nodes. */
  lemma MaskQuorum(mask: nat, size: nat)
    requires mask < Pow2(WIDTH) && Members(mask) <= Ids(size)
    ensures Popcount(mask) >= size / 2 + 1 <==> IsQuorum(Ids(size), Members(mask))
  {
    PopcountIsSize(mask);
    IdsCount(size);
    assert Ids(size) * Members(mask) == Members(mask);
  }

  // ----- Acceptor steps -----

  /** A node whose acceptor moved with the protocol, and whose proposer stood still. */
  lemma AcceptorTracks(s: P.State, t: P.State, n: NodeState, n': NodeState)
    requires Tracks(s, n) && Advances(s, t, n.id, n.size)
    requires n' == n.(promised := n'.promised, acceptedNum := n'.acceptedNum, acceptedVal := n'.acceptedVal,
                      hasAccepted := n'.hasAccepted, accepts := n'.accepts)
    requires t.proposals == s.proposals && n.id in t.acceptors && AcceptorOk(n') && Faithful(t, n'.accepts)
    requires t.acceptors[n.id] == P.Acceptor(n'.promised, VotesOf(n'.accepts))
    ensures Tracks(t, n')
  {
    hide P.Inv, Summarised, NumberIs, PeeredAs, Known, Members, P.Pledged, Reported;
    ProposerAfter(s, t, n);
    AllKnownAfter(s, t, n.outbound);
    assert ProposerOk(t, n') == ProposerOk(t, n);
  }

  lemma PromiseMoves(s: P.State, v: Id, size: nat, num: nat)
    requires P.Inv(s) && v in s.acceptors && s.acceptors[v].promised <= num
    ensures Advances(s, P.Promise(s, v, num), v, size)
  {
    hide P.Inv, P.Evolves;
    P.PromiseKeeps(s, v, num);
  }

  lemma VoteMoves(s: P.State, v: Id, size: nat, num: nat)
    requires P.Inv(s) && v in s.acceptors && num in s.proposals && s.acceptors[v].promised <= num
    ensures Advances(s, P.Vote(s, v, num), v, size)
  {
    hide P.Inv, P.Evolves;
    P.VoteKeeps(s, v, num);
  }

  lemma ReportIsGood(s: P.State, n: NodeState)
    requires P.Inv(s) && Tracks(s, n)
    ensures Reported(s, n.hasAccepted, n.acceptedNum, n.acceptedVal, n.promised + 1)
    ensures forall b :: b in s.acceptors[n.id].votes ==> n.hasAccepted && b <= n.acceptedNum
  {
    hide NumberIs, PeeredAs, ProposerOk, Known, Owned, VotesOf;
    assert P.GoodAcceptor(s, s.acceptors[n.id]);
  }

  lemma PrepareTracks(s: P.State, n: NodeState, num: nat) returns (t: P.State)
    requires P.Inv(s) && Tracks(s, n)
    ensures Advances(s, t, n.id, n.size) && Tracks(t, OnPrepare(n, num)) && t.proposals == s.proposals
    ensures num > n.promised ==>
      P.Pledged(t, n.id, num, n.hasAccepted, n.acceptedNum) && Reported(t, n.hasAccepted, n.acceptedNum, n.acceptedVal, num)
  {
    hide P.Inv, P.Evolves, NumberIs, PeeredAs, ProposerOk, Known, Owned, VotesOf, Advances, OwnNumbers;
    t := s;
    Stays(s, n.id, n.size);
    if num > n.promised {
      PromiseMoves(s, n.id, n.size, num);
      t := P.Promise(s, n.id, num);
      ReportIsGood(s, n);
      AcceptorTracks(s, t, n, OnPrepare(n, num));
    }
  }

  lemma VotesGrow(accepts: seq<Acceptance>, x: Acceptance)
    ensures VotesOf(accepts + [x]) == VotesOf(accepts)[x.num := x.val]
  {
    assert (accepts + [x])[..|accepts|] == accepts;
  }

  lemma SummariseVote(promised: nat, num: nat, val: nat, has: bool, votes: map<nat, nat>, b: nat, v: nat)
    requires Summarised(promised, num, val, has, votes) && promised <= b
    ensures Summarised(b, b, v, true, votes[b := v])
  {
  }

  lemma AcceptTracks(s: P.State, n: NodeState, num: nat, val: nat) returns (t: P.State)
    requires P.Inv(s) && Tracks(s, n) && num in s.proposals && s.proposals[num] == val
    ensures Advances(s, t, n.id, n.size) && Tracks(t, OnAccept(n, num, val)) && t.proposals == s.proposals
    ensures n.promised <= num ==> n.id in t.acceptors && num in t.acceptors[n.id].votes
  {
    hide P.Inv, P.Evolves, NumberIs, PeeredAs, ProposerOk, Known, Owned, VotesOf, Advances, Summarised, OwnNumbers;
    t := s;
    Stays(s, n.id, n.size);
    if n.promised <= num {
      VoteMoves(s, n.id, n.size, num);
      t := P.Vote(s, n.id, num);
      VotesGrow(n.accepts, Acceptance(num, val));
      SummariseVote(n.promised, n.acceptedNum, n.acceptedVal, n.hasAccepted, VotesOf(n.accepts), num, val);
      AcceptorTracks(s, t, n, OnAccept(n, num, val));
    }
  }

  // ----- Proposer steps -----

  lemma EmitTracks(s: P.State, n: NodeState, m: Message)
    requires Tracks(s, n) && Known(s, m)
    ensures Tracks(s, n.(outbound := n.outbound + [m]))
  {
    hide Summarised, NumberIs, PeeredAs, Known, Members, P.Pledged, Reported;
    assert ProposerOk(s, n.(outbound := n.outbound + [m])) == ProposerOk(s, n);
  }

  lemma PeerIsOther(id: Id, size: nat, peers: seq<Id>, k: nat)
    requires PeeredAs(id, size, peers) && k < |peers|
    ensures peers[k] in Ids(size) && peers[k] != id
  {
    assert peers[k] in AsSet(peers);
  }

  lemma SendTracks(s: P.State, n: NodeState, kind: Kind, val: nat, k: nat)
    requires Tracks(s, n) && k <= |n.peers|
    requires kind == Prepare || (kind == Accept && n.myNum in s.proposals && s.proposals[n.myNum] == val)
    ensures Tracks(s, SendAll(n, kind, val, k))
    decreases |n.peers| - k
  {
    hide Summarised, NumberIs, Members, P.Pledged, Reported, ProposerOk, PeeredAs;
    if k < |n.peers| {
      var m := Message(kind, n.id, n.peers[k], n.myNum, val, false, 0, 0, false);
      PeerIsOther(n.id, n.size, n.peers, k);
      EmitTracks(s, n, m);
      SendTracks(s, n.(outbound := n.outbound + [m]), kind, val, k + 1);
    }
  }

  lemma CountTracks(s: P.State, n: NodeState, from: Id, num: nat, val: nat, has: bool)
    requires Tracks(s, n) && NodeId(from) && n.phase == Preparing
    requires P.Pledged(s, from, n.myNum, has, num) && Reported(s, has, num, val, n.myNum)
    ensures Tracks(s, Count(n, from, num, val, has))
  {
    hide Summarised, NumberIs, Known, PeeredAs, Members;
    var n' := Count(n, from, num, val, has);
    OrMembers(n.promiseMask, NodeBit(from));
    BitMembers(from);
    OrBound(n.promiseMask, NodeBit(from), WIDTH);
    forall a | a in Members(n'.promiseMask) ensures P.Pledged(s, a, n'.myNum, n'.hasBest, n'.bestNum) {
      if a != from { assert P.Pledged(s, a, n.myNum, n.hasBest, n.bestNum); }
    }
  }

  /** With a majority of promises, the adopted value is the only one that can still win below. */
  lemma AdoptTracks(s: P.State, n: NodeState) returns (t: P.State)
    requires P.Inv(s) && Tracks(s, n) && n.phase == Preparing && Popcount(n.promiseMask) >= Quorum(n)
    ensures Advances(s, t, n.id, n.size) && Tracks(t, Adopt(n))
  {
    hide P.Evolves, Summarised, Known, P.Pledged, Members, Popcount;
    var b, n' := n.myNum, Adopt(n);
    forall a | a in Members(n.promiseMask) ensures a in Ids(n.size) { PledgedIsMember(s, a, b, n.hasBest, n.bestNum); }
    MaskQuorum(n.promiseMask, n.size);
    P.MajorityPledged(s, Members(n.promiseMask), b, n.hasBest, n.bestNum, n'.myVal);
    P.ProposeKeeps(s, b, n'.myVal);
    t := P.Propose(s, b, n'.myVal);
    assert IsNumber(b, n.round, n.size, n.id);
    AllKnownAfter(s, t, n.outbound);
    FaithfulAfter(s, t, n.accepts);
    ZeroMembers();
  }

  lemma PledgedIsMember(s: P.State, a: Id, b: nat, hasBest: bool, best: nat)
    requires P.Pledged(s, a, b, hasBest, best)
    ensures a in s.acceptors
  {
  }

  lemma CountVoteTracks(s: P.State, n: NodeState, from: Id)
    requires Tracks(s, n) && n.phase == Accepting && NodeId(from) && from in s.acceptors && n.myNum in s.acceptors[from].votes
    ensures Tracks(s, n.(acceptMask := Or(n.acceptMask, NodeBit(from))))
  {
    hide Summarised, NumberIs, Known, PeeredAs, Members, NodeBit, Or;
    OrMembers(n.acceptMask, NodeBit(from));
    BitMembers(from);
    OrBound(n.acceptMask, NodeBit(from), WIDTH);
  }

  lemma DecideTracks(s: P.State, n: NodeState)
    requires Tracks(s, n) && n.phase == Accepting && Popcount(n.acceptMask) >= Quorum(n)
    ensures Tracks(s, n.(phase := Decided))
  {
    hide Summarised, NumberIs, Known, Members, Popcount;
    MaskQuorum(n.acceptMask, n.size);
  }

  lemma OwnProposal(s: P.State, n: NodeState)
    requires Tracks(s, n) && n.phase == Accepting
    ensures n.myNum in s.proposals && s.proposals[n.myNum] == n.myVal
  {
  }

  lemma OnAcceptShape(n: NodeState, num: nat, val: nat)
    ensures var r := OnAccept(n, num, val);
      r.phase == n.phase && r.myNum == n.myNum && r.acceptMask == n.acceptMask && r.id == n.id && r.size == n.size && r.outbound == n.outbound
    ensures num < n.promised ==> OnAccept(n, num, val) == n
  {
  }

  lemma VoteOwnTracks(s: P.State, n: NodeState) returns (t: P.State)
    requires P.Inv(s) && Tracks(s, n) && n.phase == Accepting && NodeId(n.id)
    ensures Advances(s, t, n.id, n.size) && Tracks(t, VoteOwn(n))
  {
    hide P.Evolves, P.Inv, Tracks, Or, NodeBit, Owned, OnAccept;
    OwnProposal(s, n);
    OnAcceptShape(n, n.myNum, n.myVal);
    t := AcceptTracks(s, n, n.myNum, n.myVal);
    if n.promised <= n.myNum { CountVoteTracks(t, OnAccept(n, n.myNum, n.myVal), n.id); }
  }

  lemma CloseTracks(s: P.State, n: NodeState)
    requires Tracks(s, n) && n.phase == Accepting
    ensures Tracks(s, Close(n))
  {
    hide Summarised, NumberIs, Known, PeeredAs, Members, Popcount, SendAll, AllVoted;
    if Popcount(n.acceptMask) >= Quorum(n) { DecideTracks(s, n); } else { SendTracks(s, n, Accept, n.myVal, 0); }
  }

  lemma RecordTracks(s: P.State, n: NodeState, from: Id, num: nat, val: nat, has: bool) returns (t: P.State)
    requires P.Inv(s) && Tracks(s, n) && NodeId(from) && NodeId(n.id) && n.phase == Preparing
    requires P.Pledged(s, from, n.myNum, has, num) && Reported(s, has, num, val, n.myNum)
    ensures Advances(s, t, n.id, n.size) && Tracks(t, RecordPromise(n, from, num, val, has))
  {
    hide P.Inv, P.Evolves, Tracks, Popcount, Close, VoteOwn, P.Pledged, Reported, Or;
    var n1 := Count(n, from, num, val, has);
    CountTracks(s, n, from, num, val, has);
    Stays(s, n.id, n.size);
    t := s;
    if Popcount(n1.promiseMask) >= Quorum(n1) {
      var s1 := AdoptTracks(s, n1);
      VoteOwnShape(Adopt(n1));
      t := VoteOwnTracks(s1, Adopt(n1));
      AdvancesFurther(s, s1, t, n.id, n.size);
      CloseTracks(t, VoteOwn(Adopt(n1)));
    }
  }

  lemma VoteOwnShape(n: NodeState)
    requires NodeId(n.id)
    ensures VoteOwn(n).phase == n.phase && VoteOwn(n).id == n.id && VoteOwn(n).size == n.size
  {
  }

  lemma FreshTracks(s: P.State, n: NodeState, val: nat)
    requires P.Inv(s) && Tracks(s, n)
    ensures Tracks(s, Fresh(n, val)) && Fresh(n, val).myNum > n.promised
  {
    hide P.Inv, Summarised, Known, IsNumber, NumberOf;
    NumberGrows(n.round, NextRound(n), n.size, n.id, n.myNum, n.promised);
    ZeroMembers();
  }

  lemma ProposeTracks(s: P.State, n: NodeState, val: nat) returns (t: P.State)
    requires P.Inv(s) && Tracks(s, n)
    ensures Advances(s, t, n.id, n.size) && Tracks(t, Propose(n, val))
  {
    hide P.Inv, P.Evolves, P.Pledged, Reported, RecordPromise, SendAll, Fresh, Tracks;
    IsValid(s, n);
    var n1 := Fresh(n, val);
    FreshTracks(s, n, val);
    FreshShape(n, val);
    var s1 := PrepareTracks(s, n1, n1.myNum);
    var n2 := OnPrepare(n1, n1.myNum);
    t := RecordTracks(s1, n2, n2.id, n1.acceptedNum, n1.acceptedVal, n1.hasAccepted);
    AdvancesFurther(s, s1, t, n.id, n.size);
    SendTracks(t, RecordPromise(n2, n2.id, n1.acceptedNum, n1.acceptedVal, n1.hasAccepted), Prepare, 0, 0);
  }

  lemma IsValid(s: P.State, n: NodeState)
    requires Tracks(s, n)
    ensures Valid(n) && NodeId(n.id)
  {
  }

  lemma FreshShape(n: NodeState, val: nat)
    requires Valid(n)
    ensures var n1 := Fresh(n, val); n1.id == n.id && n1.size == n.size && n1.phase == Preparing && n1.promised == n.promised
  {
  }

  // ----- Whole clusters -----

  /** Every number ever proposed belongs to some node. */
  ghost predicate AllOwned(s: P.State, size: nat) {
    forall b :: b in s.proposals ==> exists v :: v in Ids(size) && Owned(b, size, v)
  }

  ghost predicate Rel(s: P.State, c: Cluster) {
    && AllOwned(s, c.size)
    && P.Inv(s) && s.acceptors.Keys == c.nodes.Keys == Ids(c.size) && c.size <= WIDTH
    && (forall v {:trigger c.nodes[v]} :: v in c.nodes ==> c.nodes[v].id == v && c.nodes[v].size == c.size && Tracks(s, c.nodes[v]))
    && (forall m :: m in c.network ==> Known(s, m))
  }

  lemma {:induction false} PeersAre(id: Id, size: nat, i: nat)
    requires 1 <= i <= size + 1
    ensures forall p :: p in PeersFrom(id, size, i) <==> i <= p <= size && p != id
    ensures forall j, k :: 0 <= j < k < |PeersFrom(id, size, i)| ==> PeersFrom(id, size, i)[j] < PeersFrom(id, size, i)[k]
    decreases size + 1 - i
  {
    if i <= size {
      PeersAre(id, size, i + 1);
      var rest := PeersFrom(id, size, i + 1);
      assert forall k :: 0 <= k < |rest| ==> rest[k] in rest;
    }
  }

  lemma InitTracks(s: P.State, v: Id, size: nat, timeout: nat)
    requires s.acceptors.Keys == Ids(size) && size <= WIDTH && v in s.acceptors && s.acceptors[v] == P.Acceptor(0, map[]) && s.proposals == map[]
    ensures Tracks(s, NewNode(v, size, timeout))
  {
    PeersAre(v, size, 1);
    assert AsSet(PeersFrom(v, size, 1)) == Ids(size) - {v};
  }

  lemma InitRel(c: Cluster) returns (s: P.State)
    requires Init(c)
    ensures Rel(s, c)
  {
    hide Tracks, Known, PeersFrom;
    s := P.State(map v | v in c.nodes :: P.Acceptor(0, map[]), map[]);
    forall v | v in c.nodes ensures Tracks(s, c.nodes[v]) { InitTracks(s, v, c.size, c.nodes[v].timeout); }
  }

  /** Another node's step leaves this node tracked. */
  lemma TracksAfter(s: P.State, t: P.State, n: NodeState, v: Id)
    requires Tracks(s, n) && Advances(s, t, v, n.size) && v != n.id && v in Ids(n.size)
    ensures Tracks(t, n)
  {
    hide P.Inv, Summarised, NumberIs, PeeredAs, Known, Members, P.Pledged, Reported, AllVoted, Owned;
    forall b | b in t.proposals && Owned(b, n.size, n.id) ensures b in s.proposals {
      if b !in s.proposals { OwnersDiffer(b, n.size, v, n.id) by { PeeredId(n); } }
    }
    if n.phase == Preparing { NumberOwned(s, n); }
    ProposerAfter(s, t, n);
    AllKnownAfter(s, t, n.outbound);
    FaithfulAfter(s, t, n.accepts);
  }

  lemma PeeredId(n: NodeState)
    requires Peered(n)
    ensures 1 <= n.id <= n.size
  {
  }

  lemma NumberOwned(s: P.State, n: NodeState)
    requires Tracks(s, n) && n.phase == Preparing
    ensures n.myNum !in s.proposals && Owned(n.myNum, n.size, n.id)
  {
    hide Known, Members, IsNumber;
    assert IsNumber(n.myNum, n.round, n.size, n.id);
  }

  lemma StepTracks(s: P.State, n: NodeState, m: Message) returns (t: P.State)
    requires P.Inv(s) && Tracks(s, n) && Known(s, m) && m.to == n.id && NodeId(m.from)
    ensures Valid(n) && Advances(s, t, n.id, n.size) && Tracks(t, Step(n, m))
  {
    hide P.Inv, P.Evolves, Tracks, P.Pledged, Reported, RecordPromise, OnAccept, OnPrepare, OnAccepted;
    IsValid(s, n);
    Stays(s, n.id, n.size);
    t := s;
    match m.kind {
      case Prepare =>
        t := PrepareTracks(s, n, m.num);
        PrepareShape(n, m.num);
        SameIds(s, t);
        EmitTracks(t, OnPrepare(n, m.num), Reply(n, m));
      case Promise =>
        if m.num == n.myNum && n.phase == Preparing && m.ok {
          t := RecordTracks(s, n, m.from, m.acceptedNum, m.acceptedVal, m.hasAccepted);
        }
      case Accept =>
        t := AcceptTracks(s, n, m.num, m.val);
        OnAcceptShape(n, m.num, m.val);
        SameIds(s, t);
        EmitTracks(t, OnAccept(n, m.num, m.val), Message(Accepted, n.id, m.from, m.num, 0, n.promised <= m.num, 0, 0, false));
      case Accepted =>
        if m.num == n.myNum && n.phase == Accepting && m.ok { OnAcceptedTracks(s, n, m); }
    }
  }

  lemma PrepareShape(n: NodeState, num: nat)
    ensures OnPrepare(n, num).outbound == n.outbound && OnPrepare(n, num).id == n.id && OnPrepare(n, num).size == n.size
  {
  }

  lemma SameIds(s: P.State, t: P.State)
    requires P.Evolves(s, t)
    ensures s.acceptors.Keys == t.acceptors.Keys
  {
  }

  lemma OnAcceptedTracks(s: P.State, n: NodeState, m: Message)
    requires Tracks(s, n) && n.phase == Accepting && NodeId(m.from) && m.from in s.acceptors && n.myNum in s.acceptors[m.from].votes
    ensures Tracks(s, OnAccepted(n, m))
  {
    hide Tracks, Popcount, Or, NodeBit;
    var n1 := n.(acceptMask := Or(n.acceptMask, NodeBit(m.from)));
    CountVoteTracks(s, n, m.from);
    if Popcount(n1.acceptMask) >= Quorum(n1) { DecideTracks(s, n1); }
  }

  lemma TickTracks(s: P.State, n: NodeState) returns (t: P.State)
    requires P.Inv(s) && Tracks(s, n)
    ensures Valid(n) && Advances(s, t, n.id, n.size) && Tracks(t, Tick(n))
  {
    hide P.Inv, P.Evolves, Tracks, Propose;
    IsValid(s, n);
    Stays(s, n.id, n.size);
    t := s;
    if n.phase == Preparing || n.phase == Accepting {
      var n1 := n.(elapsed := n.elapsed + 1);
      ClockTracks(s, n);
      if n1.elapsed >= n1.timeout { t := ProposeTracks(s, n1, n1.myVal); }
    }
  }

  lemma ClockTracks(s: P.State, n: NodeState)
    requires Tracks(s, n)
    ensures Tracks(s, n.(elapsed := n.elapsed + 1)) && Tracks(s, n.(outbound := []))
  {
    hide Summarised, NumberIs, PeeredAs, Known, Members, P.Pledged, Reported;
  }

  /** One node moved; the rest of the cluster is tracked as before. */
  lemma OthersTracked(s: P.State, t: P.State, c: Cluster, d: Cluster, v: Id)
    requires Rel(s, c) && Advances(s, t, v, c.size) && v in c.nodes && d.size == c.size
    requires v in d.nodes && d.nodes == c.nodes[v := d.nodes[v]]
    requires d.nodes[v].id == v && d.nodes[v].size == c.size && Tracks(t, d.nodes[v])
    requires forall m :: m in d.network ==> m in c.network || m in c.nodes[v].outbound
    ensures Rel(t, d) && P.Evolves(s, t)
  {
    hide P.Inv, P.Evolves, Tracks, Known, Owned;
    SameIds(s, t);
    forall w | w in d.nodes ensures d.nodes[w].id == w && d.nodes[w].size == c.size && Tracks(t, d.nodes[w]) {
      if w != v { TracksAfter(s, t, c.nodes[w], v); }
    }
    Outgoing(s, c.nodes[v]);
    forall m | m in d.network ensures Known(t, m) { KnownAfter(s, t, m); }
  }

  lemma Outgoing(s: P.State, n: NodeState)
    requires Tracks(s, n)
    ensures AllKnown(s, n.outbound)
  {
  }

  lemma ActTracks(s: P.State, c: Cluster, e: Event, v: Id) returns (t: P.State)
    requires Rel(s, c) && Enabled(c, e) && !e.Lose? && !e.Duplicate? && v == if e.Deliver? then e.m.to else e.id
    ensures v in Next(c, e).nodes && Advances(s, t, v, c.size) && Tracks(t, Next(c, e).nodes[v])
  {
    hide P.Inv, P.Evolves, Tracks, Known, Step, Propose, Tick;
    var n := c.nodes[v];
    match e {
      case Proposal(_, val) => t := ProposeTracks(s, n, val);
      case Clock(_) => t := TickTracks(s, n);
      case Deliver(m) => t := StepTracks(s, n, m);
      case Drain(_) =>
        t := s;
        Stays(s, v, c.size);
        ClockTracks(s, n);
    }
  }

  lemma NextRel(s: P.State, c: Cluster, e: Event) returns (t: P.State)
    requires Rel(s, c) && Enabled(c, e)
    ensures Rel(t, Next(c, e)) && P.Evolves(s, t)
  {
    hide P.Inv, P.Evolves, Tracks, Known, Step, Propose, Tick, Advances;
    if e.Lose? || e.Duplicate? {
      t := s;
      EvolvesSelf(s);
    } else {
      var v := if e.Deliver? then e.m.to else e.id;
      t := ActTracks(s, c, e, v);
      OthersTracked(s, t, c, Next(c, e), v);
    }
  }

  lemma EvolvesSelf(s: P.State)
    ensures P.Evolves(s, s)
  {
  }
}
