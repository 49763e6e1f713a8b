/** Each public call on a node with a fixed voter set, as protocol steps. */
module RaftCalls {
  import opened Quorums
  import opened Bits
  import opened RaftTypes
  import opened NodeModel
  import opened FixedVoters
  import opened RaftProtocol
  import opened RaftRefinement
  import S = StableStore
  import RaftWal
  import R = RaftSteps

  // ----- Elections -----

  lemma Raises(p: Proto, v: Id, t: nat) returns (q: Proto)
    requires Inv(p) && v in p.voters && p.replicas[v].term < t
    ensures Moves(p, q, v) && v in q.voters
    ensures q.replicas[v] == p.replicas[v].(term := t, votedFor := 0, role := Follower, readReady := false)
    ensures GoodRole(q, v, q.replicas[v]) && q.reigns == p.reigns
  {
    hide R.Evolves;
    R.RaiseKeeps(p, v, t);
    q := R.Raise(p, v, t);
    InRole(q, v);
  }

  /** A vote for oneself, in a term nobody's vote of this voter is spent on. */
  lemma SelfVote(p: Proto, v: Id) returns (q: Proto)
    requires Inv(p) && R.CanVote(p, v, v)
    ensures Moves(p, q, v) && v in q.voters
    ensures q.replicas[v] == p.replicas[v].(votedFor := v, role := Candidate, votes := {v})
    ensures GoodRole(q, v, q.replicas[v])
  {
    hide R.Evolves, R.CanVote;
    R.CastVoteKeeps(p, v, v);
    q := R.CastVote(p, v, v);
    InRole(q, v);
  }

  lemma ReignsUpTo(p: Proto, v: Id, t: nat)
    requires Inv(p) && v in p.voters && p.replicas[v].term < t
    ensures !(t in p.reigns && p.reigns[t].leader == v) && TermsUpTo(p.replicas[v].log, t - 1)
  {
    assert GoodReplica(p, v, p.replicas[v]);
    if t in p.reigns { assert GoodReign(p, t); }
  }

  /** The protocol side of starting an election: a new term, and a vote for oneself in it. */
  lemma Campaign(p: Proto, v: Id) returns (q: Proto)
    requires Inv(p) && v in p.voters
    ensures Moves(p, q, v) && v in q.voters
    ensures q.replicas[v] == p.replicas[v].(term := p.replicas[v].term + 1, votedFor := v, role := Candidate, votes := {v}, readReady := false)
    ensures GoodRole(q, v, q.replicas[v])
  {
    hide Inv, R.Evolves, GoodRole;
    var t := p.replicas[v].term + 1;
    var p1 := Raises(p, v, t);
    ReignsUpTo(p, v, t);
    q := SelfVote(p1, v);
    MovesFurther(p, p1, q, v);
  }

  /** The request a candidate sends names the log its own ballot recorded. */
  lemma RequestSent(p: Proto, n: NodeState) returns (q: Proto)
    requires Inv(p) && Tracks(p, n) && !n.faulted && n.state == Candidate
    ensures Moves(p, q, n.id) && Tracks(q, n)
    ensures VoteRequest(n.id, n.term, LastIndex(n), TermAt(n, LastIndex(n))) in q.packets
  {
    assert GoodReplica(p, n.id, p.replicas[n.id]);
    q := PacketSent(p, VoteRequest(n.id, n.term, LastIndex(n), TermAt(n, LastIndex(n))), n.id);
    KnownAfter(p, q, n.outbound);
  }

  function AsCandidate(n: NodeState, disk: S.Disk): NodeState
    requires NodeId(n.id)
  {
    n.(disk := disk, state := Candidate, term := n.term + 1, votedFor := n.id, elapsed := 0,
       voteMask := NodeBit(n.id), preVoteMask := 0)
  }

  lemma CampaignWrite(p: Proto, n: NodeState) returns (q: Proto)
    requires Inv(p) && Tracks(p, n) && !n.faulted && n.state != Leader
    ensures Moves(p, q, n.id)
    ensures var n1 := Persist(n, HardState(n.term + 1, n.id, n.commit));
      Tracks(q, if n1.faulted then n1 else AsCandidate(n, n1.disk))
  {
    hide Inv, Tracks, Moves, R.Evolves, GoodRole, Persist, Members, Fixed;
    Tracked(p, n);
    var h := HardState(n.term + 1, n.id, n.commit);
    var p1 := Campaign(p, n.id);
    var n' := AsCandidate(n, Persist(n, h).disk);
    BitMembers(n.id);
    q := HardWrite(p, p1, n, h, n');
  }

  lemma StartElectionTracks(p: Proto, n: NodeState) returns (q: Proto)
    requires Inv(p) && Tracks(p, n) && !n.faulted && n.state != Leader
    ensures Moves(p, q, n.id) && Tracks(q, StartElection(n))
  {
    hide Inv, R.Evolves, Tracks, Fixed, Persist, AskAll, BecomeLeader, QuorumMask;
    Tracked(p, n);
    q := CampaignWrite(p, n);
    var h := HardState(n.term + 1, n.id, n.commit);
    PersistShape(n, h);
    var n1 := Persist(n, h);
    if !n1.faulted {
      var p1 := q;
      q := CandidateTracks(p1, AsCandidate(n, n1.disk));
      MovesFurther(p, p1, q, n.id);
    }
  }

  /** A fresh candidate asks for votes; alone, it is elected at once. */
  lemma CandidateTracks(p: Proto, n: NodeState) returns (q: Proto)
    requires Inv(p) && Tracks(p, n) && !n.faulted && n.state == Candidate
    ensures Moves(p, q, n.id)
    ensures var n1 := AskAll(n, RequestVote, n.term);
      Tracks(q, if QuorumMask(n1, n1.voteMask) then BecomeLeader(n1) else n1)
  {
    hide Inv, R.Evolves;
    q := RequestSent(p, n);
    AskTracks(q, n, RequestVote, n.term, 0);
    var n1 := AskAll(n, RequestVote, n.term);
    FixedQuorum(n1, p.voters, n1.voteMask);
    if QuorumMask(n1, n1.voteMask) {
      var p1 := q;
      q := BecomeLeaderTracks(p1, n1);
      MovesFurther(p, p1, q, n.id);
    }
  }

  lemma ResetPeers(n: NodeState, next: nat, k: nat)
    requires k <= |n.peers|
    ensures var r := ResetPeersFrom(n, next, k);
      && (forall p :: p in n.peers[k..] ==> p in r.next && r.next[p] == next && p in r.matched && r.matched[p] == 0)
      && (forall p :: p in r.matched ==> p in n.peers[k..] || (p in n.matched && r.matched[p] == n.matched[p]))
      && (forall p :: p !in n.peers[k..] ==> Lookup(r.next, p) == Lookup(n.next, p))
      && (forall p :: p !in n.peers[k..] && p in n.matched ==> p in r.matched && r.matched[p] == n.matched[p])
      && (forall p :: p !in n.peers[k..] && p in n.next ==> p in r.next && r.next[p] == n.next[p])
    decreases |n.peers| - k
  {
    if k < |n.peers| {
      ResetPeers(n.(next := n.next[n.peers[k] := next], matched := n.matched[n.peers[k] := 0]), next, k + 1);
      assert n.peers[k..] == [n.peers[k]] + n.peers[k + 1..];
    }
  }

  /** The protocol side of winning: office in a term where no barrier was ever opened. */
  lemma Inaugurated(p: Proto, v: Id) returns (q: Proto)
    requires Inv(p) && R.CanElect(p, v)
    ensures Moves(p, q, v) && v in q.voters
    ensures q.replicas[v] == p.replicas[v].(role := Leader, matched := map[])
    ensures forall c :: (p.replicas[v].term, c) !in q.barriers
  {
    hide R.Evolves;
    R.TermIsFree(p, v);
    forall t, c | (t, c) in p.barriers ensures t in p.reigns { assert GoodBarrier(p, t, c); }
    R.ElectKeeps(p, v);
    q := R.Elect(p, v);
  }

  lemma Wins(p: Proto, n: NodeState) returns (q: Proto)
    requires Inv(p) && Tracks(p, n) && !n.faulted && n.state == Candidate && IsQuorum(p.voters, Members(n.voteMask))
    ensures Moves(p, q, n.id) && Holds(q, n.(state := Leader, leader := n.id, elapsed := 0))
    ensures q.replicas[n.id].role == Leader && (forall c :: (n.term, c) !in q.barriers) && !n.readReady
  {
    hide Inv, R.Evolves, Known, Members, PeeredAs, VoterMaskIs;
    q := Inaugurated(p, n.id);
    KnownAfter(p, q, n.outbound);
    SameVoters(p, q);
  }

  lemma BecomeLeaderTracks(p: Proto, n: NodeState) returns (q: Proto)
    requires Inv(p) && Tracks(p, n) && !n.faulted && n.state == Candidate && IsQuorum(p.voters, Members(n.voteMask))
    ensures Moves(p, q, n.id) && Tracks(q, BecomeLeader(n))
  {
    hide Inv, R.Evolves, Tracks, Fixed, OnlyPeers, Holds, AppendLocal, ResetPeersFrom, BroadcastFrom, Members;
    Tracked(p, n);
    var e := ZERO_ENTRY.(term := n.term, kind := Noop);
    var n0 := n.(state := Leader, leader := n.id, elapsed := 0);
    var p1 := Wins(p, n);
    var n1 := AppendLocal(n0, e);
    var p2 := AppendLocalHolds(p1, n0, e);
    MovesFurther(p, p1, p2, n.id);
    if n1.faulted {
      q := p2;
    } else {
      var p3 := TakesOffice(p2, n1);
      MovesFurther(p, p2, p3, n.id);
      q := BroadcastTracks(p3, ResetPeersFrom(n1, LastIndex(n1) + 1, 0), 0);
      MovesFurther(p, p3, q, n.id);
    }
  }

  /** A leader that has just stored its first entry starts with nothing acknowledged. */
  lemma TakesOffice(p: Proto, n: NodeState) returns (q: Proto)
    requires Inv(p) && Holds(p, n) && n.state == Leader && p.replicas[n.id].role == Leader && !n.readReady
    requires OnlyPeers(n.peers, n.matched)
    requires forall c :: (n.term, c) !in p.barriers
    ensures Moves(p, q, n.id) && Tracks(q, ResetPeersFrom(n, LastIndex(n) + 1, 0))
  {
    var r := ResetPeersFrom(n, LastIndex(n) + 1, 0);
    ResetPeers(n, LastIndex(n) + 1, 0);
    assert n.peers[0..] == n.peers;
    assert GoodReplica(p, n.id, p.replicas[n.id]);
    q := Refresh(p, r);
  }

  lemma StartPreVoteTracks(p: Proto, n: NodeState) returns (q: Proto)
    requires Inv(p) && Tracks(p, n) && !n.faulted && n.state != Leader
    ensures Moves(p, q, n.id) && Tracks(q, StartPreVote(n))
  {
    hide Inv, R.Evolves, StartElection, QuorumMask, AskFrom, Members, AllKnown;
    var n1 := n.(elapsed := 0, preVoteTerm := n.term + 1, leader := 0, preVoteMask := NodeBit(n.id));
    AskTracks(p, n1, PreVote, n1.preVoteTerm, 0);
    var n2 := AskAll(n1, PreVote, n1.preVoteTerm);
    if QuorumMask(n2, n2.preVoteMask) {
      q := StartElectionTracks(p, n2);
    } else {
      q := p;
      Stays(p, n.id);
    }
  }

  /** Clocks, the believed leader and pre-votes are of no concern to the protocol. */
  lemma IdleTracks(p: Proto, n: NodeState, n': NodeState)
    requires Tracks(p, n)
    requires n' == n.(elapsed := n'.elapsed, leader := n'.leader, preVoteTerm := n'.preVoteTerm, preVoteMask := n'.preVoteMask, applied := n'.applied)
    ensures Tracks(p, n')
  {
  }

  lemma TickTracks(p: Proto, n: NodeState) returns (q: Proto)
    requires Inv(p) && Tracks(p, n)
    ensures Moves(p, q, n.id) && Tracks(q, Tick(n))
  {
    hide Inv, R.Evolves, Tracks, BroadcastFrom, StartPreVote;
    Stays(p, n.id);
    q := p;
    if !n.faulted {
      var n1 := n.(elapsed := n.elapsed + 1);
      IdleTracks(p, n, n1);
      if n1.state == Leader {
        if n1.elapsed >= 3 {
          IdleTracks(p, n, n1.(elapsed := 0));
          q := BroadcastTracks(p, n1.(elapsed := 0), 0);
        }
      } else if n1.elapsed >= n1.timeout {
        q := StartPreVoteTracks(p, n1);
      }
    }
  }

  lemma OnPreVoteTracks(p: Proto, n: NodeState, m: Message)
    requires Inv(p) && Tracks(p, n) && !n.faulted && Known(p.voters, p.packets, m) && m.to == n.id && NodeId(m.from)
    ensures Tracks(p, OnPreVote(n, m))
  {
    hide Inv, Tracks, Fixed, AsUpToDate, IsVoter;
    Tracked(p, n);
    EmitTracks(p, n, OnPreVote(n, m).outbound[|n.outbound|]);
  }

  lemma OnPreVoteResponseTracks(p: Proto, n: NodeState, m: Message) returns (q: Proto)
    requires Inv(p) && Tracks(p, n) && !n.faulted && NodeId(m.from)
    ensures Moves(p, q, n.id) && Tracks(q, OnPreVoteResponse(n, m))
  {
    Stays(p, n.id);
    hide Inv, R.Evolves, Tracks, Fixed, StartElection, QuorumMask, IsVoter, Or;
    Tracked(p, n);
    q := p;
    if OnPreVoteResponse(n, m) != n {
      var n1 := n.(preVoteMask := Or(n.preVoteMask, NodeBit(m.from)));
      IdleTracks(p, n, n1);
      if QuorumMask(n1, n1.preVoteMask) { q := StartElectionTracks(p, n1); }
    }
  }

  // ----- Terms and votes -----

  lemma AdoptTermTracks(p: Proto, n: NodeState, m: Message) returns (q: Proto)
    requires Inv(p) && Tracks(p, n) && !n.faulted
    ensures Moves(p, q, n.id) && Tracks(q, AdoptTerm(n, m))
  {
    hide Inv, R.Evolves, Tracks, Fixed, Persist, GoodRole, Members;
    Tracked(p, n);
    if AdoptTerm(n, m) == n {
      q := p;
      Stays(p, n.id);
    } else {
      var h := HardState(m.term, 0, n.commit);
      var p1 := Raises(p, n.id, m.term);
      var n' := n.(state := Follower, term := m.term, votedFor := 0, leader := 0, readReady := false, disk := Persist(n, h).disk);
      q := HardWrite(p, p1, n, h, n');
      PersistShape(n, h);
    }
  }

  /** A replica that has not voted in its term is a follower. */
  lemma UnvotedFollows(p: Proto, v: Id)
    requires Inv(p) && v in p.voters && p.replicas[v].votedFor == 0
    ensures p.replicas[v].role == Follower && (v, p.replicas[v].term) !in p.ballots
  {
    var r := p.replicas[v];
    assert GoodReplica(p, v, r);
    forall w | (w, r.term) in p.ballots ensures p.ballots[(w, r.term)].candidate != v { assert GoodBallot(p, w, r.term); }
    if r.role == Leader {
      assert GoodReign(p, r.term);
      var w := QuorumsMeet(p.voters, VotersFor(p, r.term, v), VotersFor(p, r.term, v));
      assert false;
    }
  }

  /** The request behind a vote names the candidate's own ballot. */
  lemma MayVote(p: Proto, n: NodeState, m: Message)
    requires Inv(p) && Tracks(p, n) && !n.faulted && NodeId(m.from) && GrantsVote(n, m) && n.votedFor != m.from
    requires m.kind == RequestVote && Known(p.voters, p.packets, m) && m.to == n.id
    ensures R.CanVote(p, n.id, m.from)
  {
    UnvotedFollows(p, n.id);
    assert GoodPacket(p, VoteRequest(m.from, m.term, m.logIndex, m.logTerm));
    assert GoodBallot(p, m.from, m.term);
  }

  lemma CastFor(p: Proto, v: Id, c: Id) returns (q: Proto)
    requires Inv(p) && R.CanVote(p, v, c)
    ensures Moves(p, q, v) && q.voters == p.voters
    ensures var r := p.replicas[v].(votedFor := c); SameDurable(q.replicas[v], r) && (v != c ==> GoodRole(q, v, r))
  {
    hide R.Evolves;
    R.CastVoteKeeps(p, v, c);
    q := R.CastVote(p, v, c);
    InRole(q, v);
  }

  /** The vote a granting node records, in the protocol; granting again changes nothing. */
  lemma Votes(p: Proto, n: NodeState, m: Message) returns (q: Proto)
    requires Inv(p) && Tracks(p, n) && !n.faulted && NodeId(m.from) && GrantsVote(n, m)
    requires m.kind == RequestVote && Known(p.voters, p.packets, m) && m.to == n.id
    ensures Moves(p, q, n.id) && q.voters == p.voters
    ensures var r := Abs(n).(votedFor := m.from); SameDurable(q.replicas[n.id], r) && GoodRole(q, n.id, r)
    ensures n.votedFor == 0 || n.votedFor == m.from
  {
    hide Inv, R.Evolves, R.CanVote, Tracks, Fixed, GoodRole, Members, IsVoter, AsUpToDate;
    Tracked(p, n);
    if n.votedFor == m.from {
      q := p;
      InRole(p, n.id);
      Stays(p, n.id);
    } else {
      MayVote(p, n, m);
      q := CastFor(p, n.id, m.from);
    }
  }

  lemma VoteWrite(p: Proto, n: NodeState, m: Message) returns (q: Proto)
    requires Inv(p) && Tracks(p, n) && !n.faulted && NodeId(m.from) && GrantsVote(n, m)
    requires m.kind == RequestVote && Known(p.voters, p.packets, m) && m.to == n.id
    ensures Moves(p, q, n.id)
    ensures var n1 := Persist(n, HardState(n.term, m.from, n.commit));
      && Tracks(q, if n1.faulted then n1 else n1.(votedFor := m.from, elapsed := 0))
      && n1.id == n.id && n1.term == n.term && q.voters == p.voters
  {
    hide Inv, R.Evolves, Tracks, Fixed, GoodRole, GrantsVote, Persist, Members;
    Tracked(p, n);
    var p1 := Votes(p, n, m);
    var h := HardState(n.term, m.from, n.commit);
    var n' := n.(votedFor := m.from, elapsed := 0, disk := Persist(n, h).disk);
    assert Abs(n') == Abs(n).(votedFor := m.from);
    q := HardWrite(p, p1, n, h, n');
    PersistShape(n, h);
    SameVoters(p, q);
  }

  lemma EmitTracks(p: Proto, n: NodeState, m: Message)
    requires Tracks(p, n) && !n.faulted && Known(p.voters, p.packets, m)
    ensures Tracks(p, Emit(n, m))
  {
    KnownLonger(p.voters, p.packets, n.outbound, m);
  }

  lemma OnVoteTracks(p: Proto, n: NodeState, m: Message) returns (q: Proto)
    requires Inv(p) && Tracks(p, n) && !n.faulted && NodeId(m.from)
    requires m.kind == RequestVote && Known(p.voters, p.packets, m) && m.to == n.id
    ensures Moves(p, q, n.id) && Tracks(q, OnVote(n, m))
  {
    hide Inv, R.Evolves, Tracks, Fixed, Persist, GrantsVote, GoodRole;
    Tracked(p, n);
    if GrantsVote(n, m) {
      q := VoteWrite(p, n, m);
      var n1 := Persist(n, HardState(n.term, m.from, n.commit));
      if !n1.faulted {
        var p1 := q;
        q := GrantSent(p1, n1.(votedFor := m.from, elapsed := 0));
        MovesFurther(p, p1, q, n.id);
      }
    } else {
      q := p;
      Stays(p, n.id);
      EmitTracks(p, n, Blank(RequestVoteResponse, n.id, m.from, n.term).(reject := true));
    }
  }

  lemma GrantSent(p: Proto, n: NodeState) returns (q: Proto)
    requires Inv(p) && Tracks(p, n) && !n.faulted && n.votedFor in p.voters && n.votedFor != n.id
    ensures Moves(p, q, n.id) && Tracks(q, Emit(n, Blank(RequestVoteResponse, n.id, n.votedFor, n.term)))
  {
    assert GoodReplica(p, n.id, p.replicas[n.id]);
    q := PacketSent(p, VoteGrant(n.id, n.votedFor, n.term), n.id);
    KnownAfter(p, q, n.outbound);
    EmitTracks(q, n, Blank(RequestVoteResponse, n.id, n.votedFor, n.term));
  }

  lemma OnVoteResponseTracks(p: Proto, n: NodeState, m: Message) returns (q: Proto)
    requires Inv(p) && Tracks(p, n) && !n.faulted && NodeId(m.from)
    requires m.kind == RequestVoteResponse && Known(p.voters, p.packets, m) && m.to == n.id
    ensures Moves(p, q, n.id) && Tracks(q, OnVoteResponse(n, m))
  {
    if OnVoteResponse(n, m) == n {
      q := p;
      Stays(p, n.id);
    } else {
      var p1 := CountVote(p, n, m);
      hide Inv, R.Evolves;
      var n1 := n.(voteMask := Or(n.voteMask, NodeBit(m.from)));
      FixedQuorum(n1, p.voters, n1.voteMask);
      if QuorumMask(n1, n1.voteMask) {
        q := BecomeLeaderTracks(p1, n1);
        MovesFurther(p, p1, q, n.id);
      } else {
        q := p1;
      }
    }
  }

  lemma CountVote(p: Proto, n: NodeState, m: Message) returns (q: Proto)
    requires Inv(p) && Tracks(p, n) && !n.faulted && NodeId(m.from) && n.state == Candidate && m.term == n.term && !m.reject
    requires m.kind == RequestVoteResponse && Known(p.voters, p.packets, m) && m.to == n.id
    ensures Moves(p, q, n.id) && Tracks(q, n.(voteMask := Or(n.voteMask, NodeBit(m.from))))
  {
    assert GoodReplica(p, n.id, p.replicas[n.id]) && GoodPacket(p, VoteGrant(m.from, n.id, n.term));
    OrMembers(n.voteMask, NodeBit(m.from));
    BitMembers(m.from);
    q := Refresh(p, n.(voteMask := Or(n.voteMask, NodeBit(m.from))));
  }

  // ----- Following -----

  /** The protocol's packet for an append message. */
  function PacketOf(m: Message): Packet {
    AppendEntry(m.from, m.to, m.term, m.logIndex, m.logTerm, m.hasEntry, m.entry, m.commit, m.context)
  }

  /** A node never takes an append of its own term while it leads: only it could have sent one. */
  lemma StepsDown(p: Proto, n: NodeState, m: Message) returns (q: Proto)
    requires Inv(p) && Tracks(p, n) && !n.faulted && m.kind == Append && Known(p.voters, p.packets, m) && m.to == n.id
    requires m.term == n.term
    ensures Moves(p, q, n.id) && Tracks(q, n.(state := Follower, leader := m.from, elapsed := 0))
    ensures q.reigns == p.reigns && q.packets == p.packets && n.term in p.reigns
  {
    assert GoodReplica(p, n.id, p.replicas[n.id]) && GoodPacket(p, PacketOf(m));
    q := Refresh(p, n.(state := Follower, leader := m.from, elapsed := 0));
  }

  /** Storing an entry, for a log without configuration changes. */
  ghost predicate Stores(n: NodeState, log: seq<Entry>, r: NodeState) {
    var w := S.Write(n.disk, n.disk.(wal := n.disk.wal.(data := log)));
    if w.ok then r == n.(log := log, disk := w.disk) else StoppedFrom(n, r) && r.disk == w.disk
  }

  lemma StoreEntryShape(n: NodeState, voters: set<Id>, prev: nat, e: Entry)
    requires Fixed(n, voters) && Mirrors(n) && !n.faulted && prev < |n.log| && PlainEntry(e)
    ensures var log := R.Spliced(n.log, prev, e); var r := StoreEntry(n, prev + 1, e);
      PlainLog(log) && if log == n.log then r == n else Stores(n, log, r)
  {
    hide PeeredAs, VoterMaskIs, Members;
    FixedIsValid(n, voters);
    var log := R.Spliced(n.log, prev, e);
    if prev + 1 < |n.log| && n.log[prev + 1].term != e.term {
      StoreOver(n, voters, prev, e);
      assert log[prev + 1] != n.log[prev + 1];
    } else if prev + 1 == |n.log| {
      assert n.log[..prev + 1] == n.log;
      assert |log| == |n.log| + 1;
    }
  }

  lemma StoreOver(n: NodeState, voters: set<Id>, prev: nat, e: Entry)
    requires Fixed(n, voters) && Mirrors(n) && !n.faulted && prev + 1 < |n.log| && PlainEntry(e) && n.log[prev + 1].term != e.term
    ensures Stores(n, n.log[..prev + 1] + [e], StoreEntry(n, prev + 1, e))
  {
    hide PeeredAs, VoterMaskIs, Members;
    FixedIsValid(n, voters);
    var cut := n.(log := n.log[..prev + 1]);
    FixedRebuild(cut, Max(n.commit + 1, 1));
    assert RebuildPendingConfig(cut) == cut;
  }

  lemma TracksAfter(p: Proto, q: Proto, n: NodeState)
    requires Tracks(p, n) && R.Evolves(p, q) && q.replicas[n.id] == p.replicas[n.id]
    ensures Tracks(q, n)
  {
    KnownAfter(p, q, n.outbound);
  }

  lemma LogWrite(p: Proto, q: Proto, n: NodeState, log: seq<Entry>, r: NodeState) returns (s: Proto)
    requires Inv(p) && Tracks(p, n) && !n.faulted && n.state == Follower && Moves(p, q, n.id)
    requires PlainLog(log) && n.commit < |log| && q.replicas[n.id] == p.replicas[n.id].(log := log)
    requires Stores(n, log, r)
    ensures Moves(p, s, n.id) && Tracks(s, r) && (!r.faulted ==> s == q)
  {
    hide Inv, R.Evolves, Known, PeeredAs, VoterMaskIs, Members, GoodRole;
    Tracked(p, n);
    SameVoters(p, q);
    s := q;
    if r.faulted {
      s := FailedWrite(p, q, n, r, n.disk.(wal := n.disk.wal.(data := log)));
    } else {
      KnownAfter(p, q, n.outbound);
    }
  }

  /** The protocol side of storing a leader's entry. */
  lemma Splices(p: Proto, n: NodeState, m: Message) returns (q: Proto)
    requires Inv(p) && Tracks(p, n) && !n.faulted && n.state == Follower && m.kind == Append && m.hasEntry
    requires Known(p.voters, p.packets, m) && m.to == n.id && m.term == n.term
    requires m.logIndex < |n.log| && n.log[m.logIndex].term == m.logTerm
    ensures var log := R.Spliced(n.log, m.logIndex, m.entry);
      && Moves(p, q, n.id) && n.term in p.reigns && n.term in q.reigns && Agree(log, q.reigns[n.term].log, m.logIndex + 1)
      && q.voters == p.voters && q.replicas[n.id] == p.replicas[n.id].(log := log) && n.commit < |log|
  {
    hide R.Evolves;
    R.FollowKeeps(p, n.id, PacketOf(m));
    q := R.Follow(p, n.id, PacketOf(m));
  }

  lemma StoreEntryTracks(p: Proto, n: NodeState, m: Message) returns (q: Proto)
    requires Inv(p) && Tracks(p, n) && !n.faulted && n.state == Follower && m.kind == Append && m.hasEntry
    requires Known(p.voters, p.packets, m) && m.to == n.id && m.term == n.term
    requires m.logIndex < |n.log| && n.log[m.logIndex].term == m.logTerm
    ensures Moves(p, q, n.id) && Tracks(q, StoreEntry(n, m.logIndex + 1, m.entry)) && n.term in q.reigns
    ensures var r := StoreEntry(n, m.logIndex + 1, m.entry); !r.faulted ==>
      r == n.(log := r.log, disk := r.disk) && Agree(r.log, q.reigns[n.term].log, m.logIndex + 1)
  {
    hide Inv, R.Evolves, StoreEntry, R.Spliced, Tracks, Fixed, Agree, PlainLog;
    Tracked(p, n);
    var p1 := Splices(p, n, m);
    StoreEntryShape(n, p.voters, m.logIndex, m.entry);
    var log, r := R.Spliced(n.log, m.logIndex, m.entry), StoreEntry(n, m.logIndex + 1, m.entry);
    if log == n.log {
      q := p1;
      TracksAfter(p, q, n);
    } else {
      q := LogWrite(p, p1, n, log, r);
      SameVoters(p, q);
    }
  }

  /** Agreement with a leader's log survives as that log grows. */
  lemma AgreeAfter(p: Proto, q: Proto, log: seq<Entry>, t: nat, k: nat)
    requires R.Evolves(p, q) && t in p.reigns && Agree(log, p.reigns[t].log, k)
    ensures t in q.reigns && Agree(log, q.reigns[t].log, k)
  {
  }

  /** The protocol side of a follower's commit. */
  lemma FollowerCommits(p: Proto, n: NodeState, m: Message, k: nat) returns (q: Proto)
    requires Inv(p) && Tracks(p, n) && !n.faulted && n.state == Follower && m.kind == Append
    requires Known(p.voters, p.packets, m) && m.to == n.id && m.term == n.term && n.term in p.reigns
    requires Agree(n.log, p.reigns[n.term].log, k) && n.commit <= k <= m.commit
    ensures Moves(p, q, n.id) && n.id in q.voters && q.replicas[n.id] == p.replicas[n.id].(commit := k)
  {
    hide R.Evolves, GoodReplica, Agree;
    assert GoodPacket(p, PacketOf(m));
    R.FollowCommitKeeps(p, n.id, k);
    q := R.WithReplica(p, n.id, p.replicas[n.id].(commit := k));
  }

  lemma CommitFollowed(p: Proto, n: NodeState, m: Message, k: nat) returns (q: Proto)
    requires Inv(p) && Tracks(p, n) && !n.faulted && n.state == Follower && m.kind == Append
    requires Known(p.voters, p.packets, m) && m.to == n.id && m.term == n.term && n.term in p.reigns
    requires Agree(n.log, p.reigns[n.term].log, k) && n.commit <= k <= m.commit
    ensures Moves(p, q, n.id)
    ensures var n1 := Persist(n, HardState(n.term, n.votedFor, k));
      Tracks(q, if n1.faulted then n1 else n.(commit := k, disk := n1.disk))
  {
    hide Inv, R.Evolves, Tracks, Fixed, Persist, Members;
    Tracked(p, n);
    var p1 := FollowerCommits(p, n, m, k);
    var h := HardState(n.term, n.votedFor, k);
    q := HardWrite(p, p1, n, h, n.(commit := k, disk := Persist(n, h).disk));
  }

  lemma FollowCommitTracks(p: Proto, n: NodeState, m: Message) returns (q: Proto)
    requires Inv(p) && Tracks(p, n) && !n.faulted && n.state == Follower && m.kind == Append
    requires Known(p.voters, p.packets, m) && m.to == n.id && m.term == n.term && n.term in p.reigns
    requires Agree(n.log, p.reigns[n.term].log, MatchedIndex(m))
    ensures Moves(p, q, n.id) && Tracks(q, FollowCommit(n, m))
    ensures var r := FollowCommit(n, m); !r.faulted ==> r == n.(commit := r.commit, disk := r.disk)
  {
    hide Inv, R.Evolves, Tracks, Fixed, Persist, ApplyCommittedConfigurations;
    Tracked(p, n);
    if m.commit > n.commit && MatchedIndex(m) > n.commit {
      var k := Min(m.commit, MatchedIndex(m));
      q := CommitFollowed(p, n, m, k);
      CommitShape(n, p.voters, k);
    } else {
      q := p;
      Stays(p, n.id);
    }
  }

  /** The follower's acknowledgement is durable before it is queued. */
  lemma AckTracks(p: Proto, n: NodeState, m: Message) returns (q: Proto)
    requires Inv(p) && Tracks(p, n) && !n.faulted && m.kind == Append && n.term in p.reigns
    requires Known(p.voters, p.packets, m) && m.to == n.id && m.term == n.term
    requires Agree(n.log, p.reigns[n.term].log, MatchedIndex(m))
    ensures Moves(p, q, n.id) && Tracks(q, RespondAppend(n, m, false, MatchedIndex(m)))
  {
    var k := MatchedIndex(m);
    R.AcknowledgeKeeps(p, n.id, k);
    var p1 := R.Acknowledge(p, n.id, k);
    assert GoodPacket(p, PacketOf(m));
    if m.context != 0 { assert GoodBarrier(p, n.term, m.context); }
    q := PacketSent(p1, AppendAck(n.id, n.term, k, m.context), n.id);
    MovesFurther(p, p1, q, n.id);
    KnownAfter(p, q, n.outbound);
    EmitTracks(q, n, Blank(AppendResponse, n.id, m.from, n.term).(reject := false, acked := k, context := m.context));
  }

  lemma OnAppendTracks(p: Proto, n: NodeState, m: Message) returns (q: Proto)
    requires Inv(p) && Tracks(p, n) && !n.faulted && NodeId(m.from) && m.term <= n.term
    requires m.kind == Append && Known(p.voters, p.packets, m) && m.to == n.id
    ensures Moves(p, q, n.id) && Tracks(q, OnAppend(n, m))
  {
    if RejectsAppend(n, m) {
      q := p;
      Stays(p, n.id);
      EmitTracks(p, n, Blank(AppendResponse, n.id, m.from, n.term).(reject := true, acked := LastIndex(n), context := m.context));
    } else {
      hide AcceptAppend;
      var p1 := StepsDown(p, n, m);
      q := AcceptAppendTracks(p1, n.(state := Follower, leader := m.from, elapsed := 0), m);
      MovesFurther(p, p1, q, n.id);
    }
  }

  lemma AcceptAppendTracks(p: Proto, n: NodeState, m: Message) returns (q: Proto)
    requires Inv(p) && Tracks(p, n) && !n.faulted && n.state == Follower && m.kind == Append
    requires Known(p.voters, p.packets, m) && m.to == n.id && m.term == n.term
    requires m.logIndex < |n.log| && n.log[m.logIndex].term == m.logTerm
    ensures Moves(p, q, n.id) && Tracks(q, AcceptAppend(n, m))
  {
    hide Inv, R.Evolves, StoreEntry, AnswerAppend;
    var n1 := if m.hasEntry then StoreEntry(n, m.logIndex + 1, m.entry) else n;
    q := Matches(p, n, m);
    if !n1.faulted {
      var p1 := q;
      KnownAfter(p, p1, [m]);
      q := AnswerAppendTracks(p1, n1, m);
      MovesFurther(p, p1, q, n.id);
    }
  }

  lemma AnswerAppendTracks(p: Proto, n: NodeState, m: Message) returns (q: Proto)
    requires Inv(p) && Tracks(p, n) && !n.faulted && n.state == Follower && m.kind == Append
    requires Known(p.voters, p.packets, m) && m.to == n.id && m.term == n.term && n.term in p.reigns
    requires Agree(n.log, p.reigns[n.term].log, MatchedIndex(m))
    ensures Moves(p, q, n.id) && Tracks(q, AnswerAppend(n, m))
  {
    hide Inv, R.Evolves, FollowCommit;
    q := FollowCommitTracks(p, n, m);
    var n1 := FollowCommit(n, m);
    if !n1.faulted {
      var p1 := q;
      AgreeAfter(p, p1, n.log, n.term, MatchedIndex(m));
      KnownAfter(p, p1, [m]);
      q := AckTracks(p1, n1, m);
      MovesFurther(p, p1, q, n.id);
    }
  }

  /** After the log has been brought in line, it agrees with the leader's up to the message. */
  lemma Matches(p: Proto, n: NodeState, m: Message) returns (q: Proto)
    requires Inv(p) && Tracks(p, n) && !n.faulted && n.state == Follower && m.kind == Append
    requires Known(p.voters, p.packets, m) && m.to == n.id && m.term == n.term
    requires m.logIndex < |n.log| && n.log[m.logIndex].term == m.logTerm
    ensures var n2 := if m.hasEntry then StoreEntry(n, m.logIndex + 1, m.entry) else n;
      && Moves(p, q, n.id) && Tracks(q, n2) && n.term in q.reigns
      && (!n2.faulted ==> n2 == n.(log := n2.log, disk := n2.disk) && Agree(n2.log, q.reigns[n.term].log, MatchedIndex(m)))
  {
    if m.hasEntry {
      q := StoreEntryTracks(p, n, m);
    } else {
      q := p;
      Stays(p, n.id);
      assert GoodReplica(p, n.id, p.replicas[n.id]) && GoodPacket(p, PacketOf(m)) && GoodReign(p, n.term);
      R.LogsMatch(p.reigns, n.log, p.reigns[n.term].log, m.logIndex);
    }
  }

  // ----- Leading -----

  lemma ProposeTracks(p: Proto, n: NodeState, e: Entry) returns (q: Proto)
    requires Inv(p) && Tracks(p, n) && !n.faulted && n.state == Leader && e.term == n.term && PlainEntry(e)
    ensures Moves(p, q, n.id) && Tracks(q, ProposeEntry(n, e))
  {
    q := AppendLocalHolds(p, n, e);
    var n1 := AppendLocal(n, e);
    if !n1.faulted {
      hide Inv, R.Evolves, AppendLocal;
      var p1 := q;
      q := BroadcastTracks(p1, n1, 0);
      MovesFurther(p, p1, q, n.id);
    }
  }

  /** The protocol side of counting an answer to a read barrier. */
  lemma Answered(p: Proto, n: NodeState, m: Message) returns (q: Proto)
    requires Inv(p) && Tracks(p, n) && !n.faulted && NodeId(m.from) && n.state == Leader
    requires m.kind == AppendResponse && Known(p.voters, p.packets, m) && m.to == n.id
    requires m.term == n.term && !m.reject && m.context != 0 && m.context == n.readContext
    ensures Moves(p, q, n.id) && q.voters == p.voters && q.replicas[n.id] == R.CountAnswer(p, n.id, m.from)
  {
    hide R.Evolves, R.CountAnswer;
    R.CountAnswerKeeps(p, n.id, AppendAck(m.from, m.term, m.acked, m.context));
    q := R.WithReplica(p, n.id, R.CountAnswer(p, n.id, m.from));
  }

  /** Counting with masks is counting with sets. */
  lemma CountShape(n: NodeState, voters: set<Id>, from: Id)
    requires Fixed(n, voters) && NodeId(from)
    ensures var n1 := n.(readAckMask := Or(n.readAckMask, NodeBit(from)));
      && Members(n1.readAckMask) == Members(n.readAckMask) + {from}
      && (QuorumMask(n1, n1.readAckMask) <==> IsQuorum(voters, Members(n.readAckMask) + {from}))
  {
    var n1 := n.(readAckMask := Or(n.readAckMask, NodeBit(from)));
    OrMembers(n.readAckMask, NodeBit(from));
    BitMembers(from);
    FixedQuorum(n1, voters, n1.readAckMask);
  }

  /** What answering a read barrier may change of a tracked leader. */
  lemma ReadTracks(p: Proto, q: Proto, n: NodeState, n': NodeState)
    requires Tracks(p, n) && !n.faulted && n.state == Leader && R.Evolves(p, q)
    requires n' == n.(readContext := n'.readContext, readAckMask := n'.readAckMask, readIndex := n'.readIndex, readReady := n'.readReady)
    requires n.id in q.voters && q.replicas[n.id] == Abs(n')
    ensures Tracks(q, n')
  {
    hide R.Evolves, PeeredAs, VoterMaskIs, AskedAll, OnlyPeers, Known, PlainLog, Members;
    SameVoters(p, q);
    KnownAfter(p, q, n.outbound);
  }

  lemma ReadAckTracks(p: Proto, n: NodeState, m: Message) returns (q: Proto)
    requires Inv(p) && Tracks(p, n) && !n.faulted && NodeId(m.from)
    requires m.kind == AppendResponse && Known(p.voters, p.packets, m) && m.to == n.id
    ensures Moves(p, q, n.id) && Tracks(q, CountReadAck(n, m))
  {
    hide Inv, R.Evolves, Tracks, Fixed, QuorumMask, IsVoter, IsQuorum, Members, Known, Or;
    Tracked(p, n);
    if CountReadAck(n, m) == n {
      q := p;
      Stays(p, n.id);
    } else {
      q := Answered(p, n, m);
      CountShape(n, p.voters, m.from);
      ReadTracks(p, q, n, CountReadAck(n, m));
    }
  }

  /** The nodes a leader counts for an index are the ones that acknowledged it. */
  lemma CountedAcked(p: Proto, n: NodeState, index: nat, k: nat, mask: nat)
    requires Valid(n) && k <= |n.peers| && 0 < index && GoodMatch(p, n.term, n.matched)
    requires Members(mask) <= Ackers(p, n.term, index) && (forall x :: x in n.peers ==> x in p.voters)
    ensures Members(AckedFrom(n, index, k, mask)) <= Ackers(p, n.term, index)
    decreases |n.peers| - k
  {
    if k < |n.peers| {
      var peer := n.peers[k];
      if Lookup(n.matched, peer) >= index {
        OrMembers(mask, NodeBit(peer));
        BitMembers(peer);
        assert Acked(p, peer, n.term, n.matched[peer]);
        CountedAcked(p, n, index, k + 1, Or(mask, NodeBit(peer)));
      } else {
        CountedAcked(p, n, index, k + 1, mask);
      }
    }
  }

  lemma CommittableIsAcked(p: Proto, n: NodeState, index: nat)
    requires Inv(p) && Tracks(p, n) && !n.faulted && n.state == Leader && n.commit < index <= LastIndex(n) && Committable(n, index)
    ensures R.CanLeadCommit(p, n.id, index)
  {
    assert GoodReplica(p, n.id, p.replicas[n.id]);
    LeaderAcked(p, n.id, index);
    BitMembers(n.id);
    forall x | x in n.peers ensures x in p.voters { PeerIsVoter(n, p.voters, x); }
    CountedAcked(p, n, index, 0, NodeBit(n.id));
    FixedCommit(n, p.voters, index, AckedMask(n, index));
    QuorumGrows(p.voters, Members(AckedMask(n, index)), Ackers(p, n.term, index));
  }

  lemma CommitAtTracks(p: Proto, n: NodeState, index: nat) returns (q: Proto)
    requires Inv(p) && Tracks(p, n) && !n.faulted && n.state == Leader && R.CanLeadCommit(p, n.id, index)
    ensures Moves(p, q, n.id) && Tracks(q, CommitAt(n, index))
    ensures var r := CommitAt(n, index); !r.faulted ==> r.state == Leader && r.peers == n.peers
  {
    hide Inv, R.Evolves, Tracks, Fixed, Announce, Persist, ApplyCommittedConfigurations, R.CanLeadCommit;
    Tracked(p, n);
    q := IndexCommitted(p, n, index);
    var n1 := Persist(n, HardState(n.term, n.votedFor, index));
    if !n1.faulted {
      var p1 := q;
      var n2 := ApplyCommittedConfigurations(n1.(commit := index), n.commit + 1, index);
      q := AnnounceTracks(p1, n2);
      MovesFurther(p, p1, q, n.id);
    }
  }

  lemma AnnounceTracks(p: Proto, n: NodeState) returns (q: Proto)
    requires Inv(p) && Tracks(p, n) && !n.faulted && n.state == Leader
    ensures Moves(p, q, n.id) && Tracks(q, Announce(n)) && Announce(n).state == Leader && Announce(n).peers == n.peers && !Announce(n).faulted
  {
    q := BroadcastTracks(p, n, 0);
  }

  lemma IndexCommitted(p: Proto, n: NodeState, index: nat) returns (q: Proto)
    requires Inv(p) && Tracks(p, n) && !n.faulted && n.state == Leader && R.CanLeadCommit(p, n.id, index)
    ensures Moves(p, q, n.id)
    ensures var n1 := Persist(n, HardState(n.term, n.votedFor, index));
      if n1.faulted then Tracks(q, n1)
      else
        var n2 := ApplyCommittedConfigurations(n1.(commit := index), n.commit + 1, index);
        Tracks(q, n2) && n2 == n1.(commit := index) && n2.state == Leader && n2.peers == n.peers && n2.id == n.id && !n2.faulted
  {
    hide Inv, Tracks, Moves, R.Evolves, GoodRole, Persist, Members, ApplyCommittedConfigurations, R.CanLeadCommit, Fixed;
    Tracked(p, n);
    var h := HardState(n.term, n.votedFor, index);
    var n1 := Persist(n, h);
    var p1 := LeaderCommits(p, n.id, index);
    CommitShape(n, p.voters, index);
    q := HardWrite(p, p1, n, h, n.(commit := index, disk := n1.disk));
  }

  /** A match index is adopted; the node behind it had acknowledged as much in this term. */
  lemma MatchTracks(p: Proto, n: NodeState, m: Message) returns (q: Proto)
    requires Inv(p) && Tracks(p, n) && !n.faulted && n.state == Leader && !m.reject && m.term == n.term
    requires m.kind == AppendResponse && Known(p.voters, p.packets, m) && m.to == n.id
    ensures Moves(p, q, n.id) && Tracks(q, RecordMatch(n, m.from, m.acked))
  {
    assert GoodReplica(p, n.id, p.replicas[n.id]) && GoodPacket(p, AppendAck(m.from, m.term, m.acked, m.context));
    PeerIsVoter(n, p.voters, m.from);
    q := Refresh(p, RecordMatch(n, m.from, m.acked));
  }

  lemma AdvanceCommitTracks(p: Proto, n: NodeState) returns (q: Proto)
    requires Inv(p) && Tracks(p, n) && !n.faulted && n.state == Leader
    ensures Moves(p, q, n.id) && Tracks(q, AdvanceCommit(n))
    ensures var r := AdvanceCommit(n); !r.faulted ==> r.state == Leader && r.peers == n.peers
  {
    var found := FindCommittable(n, LastIndex(n));
    if found.Some? {
      CommittableIsAcked(p, n, found.value);
      hide CommitAt, FindCommittable;
      q := CommitAtTracks(p, n, found.value);
    } else {
      q := p;
      Stays(p, n.id);
    }
  }

  lemma ConfirmTracks(p: Proto, n: NodeState, peer: Id) returns (q: Proto)
    requires Inv(p) && Tracks(p, n) && !n.faulted && n.state == Leader && peer in n.peers
    ensures Moves(p, q, n.id) && Tracks(q, Confirm(n, peer))
  {
    hide Inv, R.Evolves, AdvanceCommit, AppendToContext;
    q := AdvanceCommitTracks(p, n);
    var n1 := AdvanceCommit(n);
    if n1.state == Leader && Lookup(n1.next, peer) <= LastIndex(n1) {
      var p1 := q;
      q := AppendToTracks(p1, n1, peer, 0);
      MovesFurther(p, p1, q, n.id);
    }
  }

  lemma NextTracks(p: Proto, n: NodeState, peer: Id, next: nat)
    requires Inv(p) && Tracks(p, n) && !n.faulted && 1 <= next
    ensures Tracks(p, n.(next := n.next[peer := next]))
  {
    hide Inv, PeeredAs, VoterMaskIs, OnlyPeers, Known, PlainLog, Members;
  }

  lemma BacktrackTracks(p: Proto, n: NodeState, peer: Id) returns (q: Proto)
    requires Inv(p) && Tracks(p, n) && !n.faulted && n.state == Leader && peer in n.peers
    ensures Moves(p, q, n.id) && Tracks(q, Backtrack(n, peer))
  {
    hide Inv, R.Evolves, Tracks, Fixed, AppendToContext;
    Tracked(p, n);
    var next := Lookup(n.next, peer);
    if next > 1 {
      NextTracks(p, n, peer, next - 1);
      q := AppendToTracks(p, n.(next := n.next[peer := next - 1]), peer, 0);
    } else {
      q := AppendToTracks(p, n, peer, 0);
    }
  }

  lemma TakeResponseTracks(p: Proto, n: NodeState, m: Message) returns (q: Proto)
    requires Inv(p) && Tracks(p, n) && !n.faulted
    requires m.kind == AppendResponse && Known(p.voters, p.packets, m) && m.to == n.id
    ensures Moves(p, q, n.id) && Tracks(q, TakeResponse(n, m))
  {
    PeerIsVoter(n, p.voters, m.from);
    Stays(p, n.id);
    hide Inv, R.Evolves, Confirm, Backtrack;
    if n.state != Leader || m.term != n.term || m.acked > LastIndex(n) {
      q := p;
    } else if m.reject {
      q := BacktrackTracks(p, n, m.from);
    } else {
      var p1 := MatchTracks(p, n, m);
      q := ConfirmTracks(p1, RecordMatch(n, m.from, m.acked), m.from);
      MovesFurther(p, p1, q, n.id);
    }
  }

  lemma OnAppendResponseTracks(p: Proto, n: NodeState, m: Message) returns (q: Proto)
    requires Inv(p) && Tracks(p, n) && !n.faulted && NodeId(m.from)
    requires m.kind == AppendResponse && Known(p.voters, p.packets, m) && m.to == n.id
    ensures Moves(p, q, n.id) && Tracks(q, OnAppendResponse(n, m))
  {
    hide Inv, R.Evolves, TakeResponse, CountReadAck;
    var p1 := ReadAckTracks(p, n, m);
    KnownAfter(p, p1, [m]);
    q := TakeResponseTracks(p1, CountReadAck(n, m), m);
    MovesFurther(p, p1, q, n.id);
  }

  // ----- Reads, transfer, restart -----

  /** The protocol side of opening a read barrier. */
  lemma Opened(p: Proto, n: NodeState, context: nat) returns (q: Proto)
    requires Inv(p) && Tracks(p, n) && !n.faulted && CanStartRead(n, context)
    ensures Advances(p, q, n.id) && q == R.StartRead(p, n.id, context)
    ensures QuorumMask(n, NodeBit(n.id)) <==> IsQuorum(p.voters, {n.id})
  {
    hide Inv, R.Evolves, QuorumMask, IsQuorum, Tracks, Fixed, Members;
    Tracked(p, n);
    FixedQuorum(n, p.voters, NodeBit(n.id));
    BitMembers(n.id);
    R.StartReadKeeps(p, n.id, context);
    q := R.StartRead(p, n.id, context);
  }

  lemma OpenBarrierTracks(p: Proto, n: NodeState, context: nat) returns (q: Proto)
    requires Inv(p) && Tracks(p, n) && !n.faulted && CanStartRead(n, context)
    ensures Advances(p, q, n.id) && Tracks(q, OpenBarrier(n, context)) && q == R.StartRead(p, n.id, context)
    ensures OpenBarrier(n, context).state == Leader && OpenBarrier(n, context).peers == n.peers
    ensures !OpenBarrier(n, context).faulted && OpenBarrier(n, context).term == n.term
  {
    hide Inv, R.Evolves, Tracks, Fixed, QuorumMask, IsQuorum, Members;
    Tracked(p, n);
    BitMembers(n.id);
    q := Opened(p, n, context);
    ReadTracks(p, q, n, OpenBarrier(n, context));
  }

  /** The barriers after a read was started: one more, recording every commit index, unless its
      context was already used in this term. */
  ghost predicate OpensOnly(p: Proto, q: Proto, t: nat, context: nat) {
    && (t, context) in q.barriers
    && (forall b :: b in q.barriers ==> b in p.barriers || b == (t, context))
    && ((t, context) !in p.barriers ==>
          q.barriers[(t, context)].commits == map w | w in p.voters :: p.replicas[w].commit)
  }

  lemma StartReadTracks(p: Proto, n: NodeState, context: nat) returns (q: Proto)
    requires Inv(p) && Tracks(p, n) && !n.faulted && CanStartRead(n, context)
    ensures Advances(p, q, n.id) && Tracks(q, StartReadIndex(n, context)) && OpensOnly(p, q, n.term, context)
  {
    hide Inv, R.Evolves, OpenBarrier, Tracks, Fixed, QuorumMask, IsQuorum, AppendAllFrom;
    Tracked(p, n);
    var p1 := OpenBarrierTracks(p, n, context);
    assert OpensOnly(p, p1, n.term, context);
    q := AppendAllTracks(p1, OpenBarrier(n, context), context, 0);
    EvolvesFurther(p, p1, q);
  }

  lemma TransferTracks(p: Proto, n: NodeState, target: Id) returns (q: Proto)
    requires Inv(p) && Tracks(p, n) && NodeId(target)
    ensures Moves(p, q, n.id) && Tracks(q, TransferLeadership(n, target))
  {
    q := p;
    Stays(p, n.id);
    if TransferLeadership(n, target) != n {
      FixedVoter(n, p.voters, target);
      PeerIsVoter(n, p.voters, target);
      if Lookup(n.matched, target) < LastIndex(n) {
        q := AppendToTracks(p, n, target, 0);
      } else {
        EmitTracks(p, n, Blank(TimeoutNow, n.id, target, n.term));
      }
    }
  }

  /** A node rebuilt from its disk is a follower with exactly the durable state. */
  lemma RestartTracks(p: Proto, n: NodeState, disk: S.Disk) returns (q: Proto)
    requires Inv(p) && Tracks(p, n) && disk.wal == n.disk.wal && disk.image == n.disk.image
    ensures Moves(p, q, n.id)
    ensures Distinct(n.id, n.peers) && NodeId(n.id)
    ensures Tracks(q, RecoveredNode(n.id, n.peers, n.timeout, disk, disk.wal.hard, disk.wal.data))
  {
    assert GoodReplica(p, n.id, p.replicas[n.id]);
    var fresh' := NewNode(n.id, n.peers, n.timeout, disk);
    NewNodeFixed(n.id, n.peers, n.timeout, disk, p.voters);
    var r := fresh'.(term := disk.wal.hard.term, votedFor := disk.wal.hard.votedFor, commit := disk.wal.hard.commit, log := disk.wal.data);
    FixedReplay(r, LastIndex(r));
    assert RecoveredNode(n.id, n.peers, n.timeout, disk, disk.wal.hard, disk.wal.data) == r;
    ZeroMembers();
    q := Refresh(p, r);
  }
}
