/**
 * Every call on a node with a fixed voter set is a sequence of protocol steps.
 *
 * A protocol state `p` tracks node `n` when replica `n.id` shows what the node's store holds
 * and, while the node runs, its volatile state; and every message the node has queued is one
 * the protocol knows to have been sent.
 */
module RaftRefinement {
  import opened Quorums
  import opened Bits
  import opened RaftTypes
  import opened NodeModel
  import opened FixedVoters
  import opened RaftProtocol
  import S = StableStore
  import RaftWal
  import R = RaftSteps

  // ----- Abstraction -----

  function Abs(n: NodeState): Replica {
    if n.faulted then
      Replica(n.disk.wal.hard.term, n.disk.wal.hard.votedFor, n.disk.wal.data, n.disk.wal.hard.commit,
              Follower, {}, map[], 0, {}, false, 0)
    else
      Replica(n.term, n.votedFor, n.log, n.commit, n.state, Members(n.voteMask), n.matched,
              n.readContext, Members(n.readAckMask), n.readReady, n.readIndex)
  }

  /** The store holds exactly what the node has in memory. */
  predicate Mirrors(n: NodeState) {
    n.disk.wal == RaftWal.Wal(HardState(n.term, n.votedFor, n.commit), 0, n.log) && n.disk.image == NO_SNAPSHOT
  }

  predicate DiskOk(d: S.Disk) {
    && d.wal.base == 0 && 0 < |d.wal.data| && PlainLog(d.wal.data) && d.wal.hard.commit < |d.wal.data|
    && d.image == NO_SNAPSHOT
  }

  predicate AskedAll(peers: seq<Id>, next: map<Id, nat>) {
    forall p :: p in peers ==> 1 <= Lookup(next, p)
  }

  predicate OnlyPeers(peers: seq<Id>, matched: map<Id, nat>) {
    forall p :: p in matched ==> p in peers
  }

  predicate NodeOk(n: NodeState, voters: set<Id>) {
    && Peered(n, voters) && 0 < |n.log|
    && if n.faulted then n.state == Follower && n.outbound == [] && DiskOk(n.disk)
       else
         && Fixed(n, voters) && Mirrors(n)
         && (n.state == Leader ==> AskedAll(n.peers, n.next))
         && (n.state != Leader ==> !n.readReady)
         && OnlyPeers(n.peers, n.matched)
  }

  /** What other nodes may rely on when they receive `m`. */
  predicate Known(voters: set<Id>, packets: set<Packet>, m: Message) {
    && m.from in voters && m.to in voters && m.from != m.to
    && match m.kind
       case RequestVote => VoteRequest(m.from, m.term, m.logIndex, m.logTerm) in packets
       case RequestVoteResponse => !m.reject ==> VoteGrant(m.from, m.to, m.term) in packets
       case Append =>
         && AppendEntry(m.from, m.to, m.term, m.logIndex, m.logTerm, m.hasEntry, m.entry, m.commit, m.context) in packets
         && (m.hasEntry ==> PlainEntry(m.entry))
       case AppendResponse => !m.reject ==> AppendAck(m.from, m.term, m.acked, m.context) in packets
       case InstallSnapshot => false
       case InstallSnapshotResponse => false
       case _ => true
  }

  predicate AllKnown(voters: set<Id>, packets: set<Packet>, ms: seq<Message>) {
    forall m :: m in ms ==> Known(voters, packets, m)
  }

  lemma KnownMore(voters: set<Id>, packets: set<Packet>, more: set<Packet>, ms: seq<Message>)
    requires AllKnown(voters, packets, ms) && packets <= more
    ensures AllKnown(voters, more, ms)
  {
  }

  lemma KnownLonger(voters: set<Id>, packets: set<Packet>, ms: seq<Message>, m: Message)
    requires AllKnown(voters, packets, ms) && Known(voters, packets, m)
    ensures AllKnown(voters, packets, ms + [m])
  {
  }

  ghost predicate Tracks(p: Proto, n: NodeState) {
    && n.id in p.voters && NodeOk(n, p.voters)
    && p.replicas[n.id] == Abs(n)
    && AllKnown(p.voters, p.packets, n.outbound)
  }

  /** Node `v` took protocol steps from `p` to `q`; every other replica stands still. */
  ghost predicate Advances(p: Proto, q: Proto, v: Id) {
    && Inv(p) && Inv(q) && R.Evolves(p, q)
    && (forall w :: w in p.voters && w != v ==> q.replicas[w] == p.replicas[w])
  }

  /** As above, opening no read barrier. */
  ghost predicate Moves(p: Proto, q: Proto, v: Id) {
    Advances(p, q, v) && q.barriers == p.barriers
  }

  lemma EvolvesFurther(p: Proto, q: Proto, r: Proto)
    requires R.Evolves(p, q) && R.Evolves(q, r)
    ensures R.Evolves(p, r)
  {
    forall v: Id, t: nat, i: nat | v in p.voters && Acked(r, v, t, i)
      ensures Acked(p, v, t, i) || p.replicas[v].term <= t
    {
      if Acked(q, v, t, i) { }
    }
  }

  lemma MovesFurther(p: Proto, q: Proto, r: Proto, v: Id)
    requires Moves(p, q, v) && Moves(q, r, v)
    ensures Moves(p, r, v)
  {
    EvolvesFurther(p, q, r);
  }

  lemma Stays(p: Proto, v: Id)
    requires Inv(p)
    ensures Moves(p, p, v)
  {
  }

  lemma KnownAfter(p: Proto, q: Proto, ms: seq<Message>)
    requires R.Evolves(p, q) && AllKnown(p.voters, p.packets, ms)
    ensures AllKnown(q.voters, q.packets, ms)
  {
    KnownMore(p.voters, p.packets, q.packets, ms);
  }

  lemma SameVoters(p: Proto, q: Proto)
    requires R.Evolves(p, q)
    ensures q.voters == p.voters && (forall t :: t in p.reigns ==> t in q.reigns)
  {
  }

  lemma InRole(p: Proto, v: Id)
    requires Inv(p) && v in p.voters
    ensures GoodRole(p, v, p.replicas[v])
  {
    assert GoodReplica(p, v, p.replicas[v]);
  }

  lemma Bounded(p: Proto, n: NodeState)
    requires Inv(p) && n.id in p.voters && SameDurable(p.replicas[n.id], Abs(n)) && !n.faulted
    ensures n.commit < |n.log|
  {
    assert GoodReplica(p, n.id, p.replicas[n.id]);
  }

  /** What tracking says of a running node, without the protocol's own invariant. */
  lemma Tracked(p: Proto, n: NodeState)
    requires Inv(p) && Tracks(p, n) && !n.faulted
    ensures n.id in p.voters && Valid(n) && p.replicas[n.id] == Abs(n) && n.commit < |n.log|
    ensures Fixed(n, p.voters) && Mirrors(n)
    ensures (n.state != Leader ==> !n.readReady) && OnlyPeers(n.peers, n.matched)
  {
    Bounded(p, n);
  }

  // ----- Volatile changes and crashes -----

  /** The durable part of a replica. */
  predicate SameDurable(r: Replica, s: Replica) {
    r.term == s.term && r.votedFor == s.votedFor && r.log == s.log && r.commit == s.commit
  }

  lemma Refresh(p: Proto, n: NodeState) returns (q: Proto)
    requires Inv(p) && n.id in p.voters && NodeOk(n, p.voters)
    requires SameDurable(p.replicas[n.id], Abs(n)) && GoodRole(p, n.id, Abs(n))
    requires AllKnown(p.voters, p.packets, n.outbound)
    ensures Moves(p, q, n.id) && Tracks(q, n) && q == R.WithReplica(p, n.id, Abs(n))
  {
    q := R.WithReplica(p, n.id, Abs(n));
    R.VolatileKeeps(p, n.id, Abs(n));
    KnownAfter(p, q, n.outbound);
  }

  /** A node that stopped on a storage error shows what its disk holds, as a follower. */
  lemma Stopped(p: Proto, n: NodeState) returns (q: Proto)
    requires Inv(p) && n.id in p.voters && n.faulted && NodeOk(n, p.voters) && SameDurable(p.replicas[n.id], Abs(n))
    ensures Moves(p, q, n.id) && Tracks(q, n) && q.barriers == p.barriers
  {
    q := Refresh(p, n);
  }

  /** `n'` is `n` stopped by a storage error; what its memory then holds no longer matters. */
  predicate StoppedFrom(n: NodeState, n': NodeState) {
    n'.faulted && n'.id == n.id && n'.peers == n.peers && n'.state == Follower && n'.outbound == [] && 0 < |n'.log|
  }

  /**
   * A failed write.  `after` is the disk should the write have reached the medium, `p` and `q`
   * the protocol before and after the matching step; the node stops in one of the two.
   */
  lemma FailedWrite(p: Proto, q: Proto, n: NodeState, n': NodeState, after: S.Disk) returns (r: Proto)
    requires Holds(p, n) && Moves(p, q, n.id) && StoppedFrom(n, n')
    requires !S.Write(n.disk, after).ok && n'.disk == S.Write(n.disk, after).disk
    requires DiskOk(after) && SameDurable(q.replicas[n.id], Abs(n'.(disk := after)))
    ensures Moves(p, r, n.id) && Tracks(r, n')
  {
    assert GoodReplica(p, n.id, p.replicas[n.id]);
    if n.disk.kept {
      r := Stopped(q, n');
      MovesFurther(p, q, r, n.id);
    } else {
      r := Stopped(p, n');
    }
  }

  /** A running node whose durable state the protocol shows, whatever its volatile state. */
  ghost predicate Holds(p: Proto, n: NodeState) {
    && n.id in p.voters && !n.faulted && Fixed(n, p.voters) && Mirrors(n)
    && SameDurable(p.replicas[n.id], Abs(n))
    && AllKnown(p.voters, p.packets, n.outbound)
  }

  // ----- Writing the hard state -----

  /** What a write of hard state leaves, for a node whose store mirrors its memory. */
  lemma PersistShape(n: NodeState, h: HardState)
    requires !n.faulted && Mirrors(n) && !RaftWal.Regresses(HardState(n.term, n.votedFor, n.commit), h)
    ensures var n1, after := Persist(n, h), n.disk.(wal := n.disk.wal.(hard := h));
      if n1.faulted then n1 == FailStorage(n.(disk := n1.disk)) && !S.Write(n.disk, after).ok && n1.disk == S.Write(n.disk, after).disk
      else n1 == n.(disk := n1.disk) && n1.disk.wal == after.wal && n1.disk.image == NO_SNAPSHOT
  {
  }

  lemma CommitShape(n: NodeState, voters: set<Id>, index: nat)
    requires Fixed(n, voters) && Mirrors(n) && !n.faulted && n.commit <= index
    ensures var n1 := Persist(n, HardState(n.term, n.votedFor, index));
      !n1.faulted ==>
        && n1.(commit := index) == n.(commit := index, disk := n1.disk)
        && ApplyCommittedConfigurations(n1.(commit := index), n.commit + 1, index) == n1.(commit := index)
  {
    PersistShape(n, HardState(n.term, n.votedFor, index));
    var n1 := Persist(n, HardState(n.term, n.votedFor, index));
    if !n1.faulted { FixedApply(n1.(commit := index), Max(n.commit + 1, 1), index); }
  }

  /** Memory catches up with a hard state that has just been written. */
  predicate CatchesUp(n: NodeState, h: HardState, n': NodeState) {
    && n' == n.(term := h.term, votedFor := h.votedFor, commit := h.commit, disk := n'.disk, state := n'.state,
                leader := n'.leader, elapsed := n'.elapsed, voteMask := n'.voteMask, preVoteMask := n'.preVoteMask,
                readReady := n'.readReady)
    && (n'.state == Leader ==> n.state == Leader) && (n'.state != Leader ==> !n'.readReady)
  }

  /**
   * A write of hard state `h` that matches the protocol step from `p` to `q`: the node ends up
   * stopped, or as `n'`, in either case tracked.
   */
  lemma HardWrite(p: Proto, q: Proto, n: NodeState, h: HardState, n': NodeState) returns (r: Proto)
    requires Tracks(p, n) && !n.faulted && Moves(p, q, n.id)
    requires !RaftWal.Regresses(HardState(n.term, n.votedFor, n.commit), h) && h.commit < |n.log|
    requires SameDurable(q.replicas[n.id], p.replicas[n.id].(term := h.term, votedFor := h.votedFor, commit := h.commit))
    requires n'.disk == Persist(n, h).disk && CatchesUp(n, h, n') && GoodRole(q, n.id, Abs(n'))
    ensures Moves(p, r, n.id) && Tracks(r, if Persist(n, h).faulted then Persist(n, h) else n')
  {
    PersistShape(n, h);
    var n1 := Persist(n, h);
    if n1.faulted {
      r := FailedWrite(p, q, n, n1, n.disk.(wal := n.disk.wal.(hard := h)));
    } else {
      KnownAfter(p, q, n.outbound);
      r := Refresh(q, n');
      MovesFurther(p, q, r, n.id);
    }
  }

  // ----- Sending -----

  /** Queues messages the protocol already knows. */
  lemma QueueTracks(p: Proto, n: NodeState, n': NodeState)
    requires Tracks(p, n) && !n.faulted && n' == n.(outbound := n'.outbound)
    requires AllKnown(p.voters, p.packets, n'.outbound)
    ensures Tracks(p, n')
  {
  }

  lemma PeerIsVoter(n: NodeState, voters: set<Id>, peer: Id)
    requires Peered(n, voters)
    ensures peer in n.peers <==> peer in voters && peer != n.id
  {
    var all := set p | p in n.peers;
    assert peer in n.peers <==> peer in all;
  }

  lemma PacketSent(p: Proto, m: Packet, v: Id) returns (q: Proto)
    requires Inv(p) && GoodPacket(p, m)
    ensures Moves(p, q, v) && m in q.packets && q == R.Send(p, m)
  {
    q := R.Send(p, m);
    R.SendKeeps(p, m);
  }

  lemma AppendToTracks(p: Proto, n: NodeState, peer: Id, context: nat) returns (q: Proto)
    requires Inv(p) && Tracks(p, n) && !n.faulted && n.state == Leader && peer in n.peers
    requires context != 0 ==> (n.term, context) in p.barriers
    ensures Moves(p, q, n.id) && Tracks(q, AppendToContext(n, peer, context)) && q.barriers == p.barriers
  {
    hide Inv, R.Evolves, Known, PeeredAs, VoterMaskIs, PlainLog, OnlyPeers, Members;
    var next := if Lookup(n.next, peer) > LastIndex(n) + 1 then LastIndex(n) + 1 else Lookup(n.next, peer);
    var m := AppendMessage(n, peer, next, context);
    q := AppendSent(p, n, peer, next, context);
    KnownAfter(p, q, n.outbound);
    KnownLonger(q.voters, q.packets, n.outbound, m);
  }

  lemma AppendSent(p: Proto, n: NodeState, peer: Id, next: nat, context: nat) returns (q: Proto)
    requires Inv(p) && Tracks(p, n) && !n.faulted && n.state == Leader && peer in n.peers
    requires context != 0 ==> (n.term, context) in p.barriers
    requires 1 <= next <= LastIndex(n) + 1
    ensures Moves(p, q, n.id) && q.replicas == p.replicas && q.barriers == p.barriers && q.voters == p.voters
    ensures Known(q.voters, q.packets, AppendMessage(n, peer, next, context))
  {
    assert GoodReplica(p, n.id, p.replicas[n.id]);
    PeerIsVoter(n, p.voters, peer);
    var m := AppendMessage(n, peer, next, context);
    q := PacketSent(p, AppendEntry(m.from, m.to, m.term, m.logIndex, m.logTerm, m.hasEntry, m.entry, m.commit, m.context), n.id);
  }

  lemma BroadcastTracks(p: Proto, n: NodeState, k: nat) returns (q: Proto)
    requires Inv(p) && Tracks(p, n) && !n.faulted && n.state == Leader && k <= |n.peers|
    ensures Moves(p, q, n.id) && Tracks(q, BroadcastFrom(n, k))
    decreases |n.peers| - k
  {
    hide Inv, R.Evolves, Tracks, IsVoter, AppendToContext;
    Tracked(p, n);
    if k == |n.peers| {
      q := p;
      Stays(p, n.id);
    } else {
      var n1 := if IsVoter(n, n.peers[k]) then AppendToContext(n, n.peers[k], 0) else n;
      var p1 := p;
      if IsVoter(n, n.peers[k]) { p1 := AppendToTracks(p, n, n.peers[k], 0); } else { Stays(p, n.id); }
      q := BroadcastTracks(p1, n1, k + 1);
      MovesFurther(p, p1, q, n.id);
    }
  }

  lemma AppendAllTracks(p: Proto, n: NodeState, context: nat, k: nat) returns (q: Proto)
    requires Inv(p) && Tracks(p, n) && !n.faulted && n.state == Leader && k <= |n.peers|
    requires context != 0 ==> (n.term, context) in p.barriers
    ensures Moves(p, q, n.id) && Tracks(q, AppendAllFrom(n, context, k))
    decreases |n.peers| - k
  {
    hide Inv, R.Evolves, Tracks, AppendToContext;
    Tracked(p, n);
    if k == |n.peers| {
      q := p;
      Stays(p, n.id);
    } else {
      var p1 := AppendToTracks(p, n, n.peers[k], context);
      q := AppendAllTracks(p1, AppendToContext(n, n.peers[k], context), context, k + 1);
      MovesFurther(p, p1, q, n.id);
    }
  }

  /** Asking for votes, once the protocol knows the request; asking for pre-votes is free. */
  lemma AskTracks(p: Proto, n: NodeState, kind: MessageType, term: nat, k: nat)
    requires Tracks(p, n) && !n.faulted && k <= |n.peers|
    requires kind == PreVote ||
      (kind == RequestVote && VoteRequest(n.id, term, LastIndex(n), TermAt(n, LastIndex(n))) in p.packets)
    ensures Tracks(p, AskFrom(n, kind, term, k))
    decreases |n.peers| - k
  {
    if k < |n.peers| {
      var m := Blank(kind, n.id, n.peers[k], term).(logIndex := LastIndex(n), logTerm := TermAt(n, LastIndex(n)));
      PeerIsVoter(n, p.voters, n.peers[k]);
      KnownLonger(p.voters, p.packets, n.outbound, m);
      QueueTracks(p, n, Emit(n, m));
      AskTracks(p, Emit(n, m), kind, term, k + 1);
    }
  }

  // ----- Local appends -----

  lemma LeaderAcked(p: Proto, v: Id, i: nat)
    requires Inv(p) && v in p.voters && p.replicas[v].role == Leader && i < |p.replicas[v].log|
    ensures Acked(p, v, p.replicas[v].term, i)
  {
    assert GoodReplica(p, v, p.replicas[v]) && GoodReign(p, p.replicas[v].term);
  }

  lemma LeaderCommits(p: Proto, v: Id, index: nat) returns (q: Proto)
    requires Inv(p) && R.CanLeadCommit(p, v, index)
    ensures Moves(p, q, v) && v in q.voters && q.replicas[v] == p.replicas[v].(commit := index) && GoodRole(q, v, q.replicas[v])
    ensures p.replicas[v].commit <= index < |p.replicas[v].log|
  {
    hide R.Evolves;
    R.LeadCommitKeeps(p, v, index);
    q := R.LeadCommit(p, v, index);
    assert GoodReplica(q, v, q.replicas[v]);
  }

  /** What holding says of a node; logs are never shorter than their commit index. */
  lemma Held(p: Proto, n: NodeState)
    requires Inv(p) && Holds(p, n)
    ensures n.id in p.voters && Valid(n) && !n.faulted && n.commit < |n.log|
    ensures Fixed(n, p.voters) && Mirrors(n) && SameDurable(p.replicas[n.id], Abs(n))
  {
    Bounded(p, n);
  }

  /** A node that changed its disk and log in step with the protocol is still held. */
  lemma HoldsOn(p: Proto, q: Proto, n: NodeState, n': NodeState)
    requires Holds(p, n) && R.Evolves(p, q) && n'.id == n.id && n'.outbound == n.outbound && !n'.faulted
    requires Fixed(n', p.voters) && Mirrors(n') && n.id in q.voters && SameDurable(q.replicas[n.id], Abs(n'))
    ensures Holds(q, n')
  {
    hide R.Evolves, PeeredAs, VoterMaskIs, PlainLog, Known, Members;
    SameVoters(p, q);
    KnownAfter(p, q, n.outbound);
  }

  /** Writing a higher commit index keeps memory and disk in step. */
  lemma StoreCommit(n: NodeState, voters: set<Id>, i: nat)
    requires Fixed(n, voters) && Mirrors(n) && !n.faulted && n.commit <= i < |n.log|
    ensures var h := HardState(n.term, n.votedFor, i); var a, after := S.SaveHardState(n.disk, h), n.disk.(wal := n.disk.wal.(hard := h));
      && a == S.Write(n.disk, after) && DiskOk(after)
      && (a.ok ==>
            var n2 := n.(commit := i, disk := a.disk);
            Fixed(n2, voters) && Mirrors(n2) && ApplyCommittedConfigurations(n2, n.commit + 1, i) == n2)
  {
    hide PeeredAs, VoterMaskIs;
    var a := S.SaveHardState(n.disk, HardState(n.term, n.votedFor, i));
    FixedIsValid(n, voters);
    FixedApply(n.(commit := i, disk := a.disk), n.commit + 1, i);
  }

  /** The leader makes a commit index durable; on success nothing but that index changes. */
  lemma CommitWrite(p: Proto, n: NodeState, i: nat, n': NodeState) returns (q: Proto)
    requires Inv(p) && Holds(p, n) && R.CanLeadCommit(p, n.id, i)
    requires var a := S.SaveHardState(n.disk, HardState(n.term, n.votedFor, i));
      if a.ok then n' == ApplyCommittedConfigurations(n.(commit := i, disk := a.disk), n.commit + 1, i)
      else StoppedFrom(n, n') && n'.disk == a.disk
    ensures Moves(p, q, n.id)
    ensures if n'.faulted then Tracks(q, n')
      else
        && n' == n.(commit := i, disk := n'.disk)
        && Holds(q, n') && q.replicas[n.id] == p.replicas[n.id].(commit := i)
  {
    hide Inv, R.Evolves, Holds, Fixed, Tracks, R.CanLeadCommit, ApplyCommittedConfigurations, S.SaveHardState, S.Write, DiskOk, GoodRole, Members;
    Held(p, n);
    q := LeaderCommits(p, n.id, i);
    StoreCommit(n, p.voters, i);
    var h := HardState(n.term, n.votedFor, i);
    if S.SaveHardState(n.disk, h).ok {
      HoldsOn(p, q, n, n');
    } else {
      q := FailedWrite(p, q, n, n', n.disk.(wal := n.disk.wal.(hard := h)));
    }
  }

  lemma LeaderAppends(p: Proto, v: Id, e: Entry) returns (q: Proto)
    requires Inv(p) && R.CanLead(p, v, e)
    ensures Moves(p, q, v) && v in q.voters && q.replicas[v] == p.replicas[v].(log := p.replicas[v].log + [e])
  {
    hide R.Evolves, R.CanLead;
    R.LeadKeeps(p, v, e);
    q := R.Lead(p, v, e);
  }

  lemma LeadWrite(p: Proto, n: NodeState, e: Entry) returns (q: Proto)
    requires Inv(p) && Holds(p, n) && p.replicas[n.id].role == Leader && e.term == n.term && PlainEntry(e)
    ensures Moves(p, q, n.id)
    ensures var n1 := Settle(n, S.Append(n.disk, LastIndex(n) + 1, e));
      if n1.faulted then Tracks(q, n1)
      else
        && n1.(log := n1.log + [e]) == n.(disk := n1.disk, log := n.log + [e])
        && Holds(q, n1.(log := n1.log + [e])) && q.replicas[n.id] == p.replicas[n.id].(log := n.log + [e])
  {
    hide Inv, R.Evolves, Holds, Fixed, Tracks, S.Append, S.Write, DiskOk, GoodRole, Members;
    Held(p, n);
    q := LeaderAppends(p, n.id, e);
    StoreLocal(n, p.voters, e);
    var n1 := Settle(n, S.Append(n.disk, LastIndex(n) + 1, e));
    if n1.faulted {
      q := FailedWrite(p, q, n, n1, n.disk.(wal := n.disk.wal.(data := n.log + [e])));
    } else {
      HoldsOn(p, q, n, n1.(log := n1.log + [e]));
    }
  }

  /** A leader that is a quorum by itself may commit what it has just stored. */
  lemma AloneCommits(p: Proto, n: NodeState)
    requires Inv(p) && Holds(p, n) && p.replicas[n.id].role == Leader && QuorumMask(n, NodeBit(n.id))
    requires n.log[|n.log| - 1].term == n.term
    ensures R.CanLeadCommit(p, n.id, LastIndex(n))
  {
    hide Inv, R.Evolves, QuorumMask, Members, NodeBit;
    Held(p, n);
    FixedQuorum(n, p.voters, NodeBit(n.id));
    BitMembers(n.id);
    LeaderAcked(p, n.id, LastIndex(n));
    QuorumGrows(p.voters, {n.id}, Ackers(p, n.term, LastIndex(n)));
  }

  /** A leader stores an entry of its own term; alone, it commits it at once. */
  lemma AppendLocalHolds(p: Proto, n: NodeState, e: Entry) returns (q: Proto)
    requires Inv(p) && Holds(p, n) && p.replicas[n.id].role == Leader && e.term == n.term && PlainEntry(e)
    ensures Moves(p, q, n.id)
    ensures var r := AppendLocal(n, e);
      if r.faulted then Tracks(q, r)
      else
        && r == n.(log := n.log + [e], commit := r.commit, disk := r.disk)
        && Holds(q, r) && q.replicas[n.id] == p.replicas[n.id].(log := r.log, commit := r.commit)
  {
    hide Inv, R.Evolves, Holds, Fixed, Tracks, QuorumMask, NodeBit, ApplyCommittedConfigurations, S.Append, S.SaveHardState, R.CanLeadCommit, Members, Mirrors;
    Held(p, n);
    var n1 := Settle(n, S.Append(n.disk, LastIndex(n) + 1, e));
    q := LeadWrite(p, n, e);
    if !n1.faulted {
      var p1, n2 := q, n1.(log := n1.log + [e]);
      Held(p1, n2);
      if QuorumMask(n2, NodeBit(n2.id)) {
        AloneCommits(p1, n2);
        q := CommitWrite(p1, n2, LastIndex(n2), AppendLocal(n, e));
        MovesFurther(p, p1, q, n.id);
      }
    }
  }

  /** Storing one entry at the end of the log keeps memory and disk in step. */
  lemma StoreLocal(n: NodeState, voters: set<Id>, e: Entry)
    requires Fixed(n, voters) && Mirrors(n) && PlainEntry(e) && n.commit < |n.log| && !n.faulted
    ensures var a, after := S.Append(n.disk, LastIndex(n) + 1, e), n.disk.(wal := n.disk.wal.(data := n.log + [e]));
      && a == S.Write(n.disk, after) && DiskOk(after)
      && (a.ok ==> var n2 := n.(disk := a.disk, log := n.log + [e]); Fixed(n2, voters) && Mirrors(n2))
      && (!a.ok ==> StoppedFrom(n, FailStorage(n.(disk := a.disk))))
  {
    assert n.log[..|n.log|] == n.log;
  }
}
