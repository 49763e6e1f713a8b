/**
 * Pre-vote containment: nodes cut off from a majority cannot drive their terms up.
 *
 * A group of nodes exchanges messages only among itself.  As long as the group, together with
 * the pre-votes its members already hold for the term above their largest, is no majority, no run
 * of clock ticks and deliveries raises that largest term.
 */
module PreVote {
  import opened Quorums
  import opened Bits
  import opened RaftTypes
  import opened NodeModel
  import opened FixedVoters
  import S = StableStore

  /** The members of the group, the voters of the whole cluster, and the largest term. */
  datatype Cut = Cut(group: set<Id>, voters: set<Id>, term: nat)

  /** The snapshot names the voters of the cluster, or none at all. */
  predicate Familiar(c: Cut, s: Snapshot) {
    s.oldVoters == 0 || (VoterMaskIs(s.oldVoters, c.voters) && s.newVoters == 0)
  }

  /** Sent inside the group, at a term not above the largest unless it only asks. */
  predicate Calm(c: Cut, m: Message) {
    && m.from in c.group && NodeId(m.from)
    && match m.kind
       case PreVote => true
       case PreVoteResponse => true
       case TimeoutNow => false
       case InstallSnapshot => m.term <= c.term && Familiar(c, m.snapshot)
       case Append => m.term <= c.term && (m.hasEntry ==> PlainEntry(m.entry))
       case _ => m.term <= c.term
  }

  predicate AllCalm(c: Cut, ms: seq<Message>) {
    forall m :: m in ms ==> Calm(c, m)
  }

  /** Even with every member of the group, the pre-votes held are no majority. */
  predicate NoMajority(c: Cut, preVoteMask: nat) {
    !IsQuorum(c.voters, Members(preVoteMask) + c.group)
  }

  /** The configuration has never changed; the log may have been compacted. */
  predicate Still(c: Cut, n: NodeState) {
    PlainLog(n.log) && VoterMaskIs(n.votersOld, c.voters) && n.votersNew == 0 && n.pendingConfig == 0 && Familiar(c, n.snapshot)
  }

  /** Pre-votes for the term above the largest are no majority; others do not matter, for they
      can only start an election up to the largest. */
  predicate Blocked(c: Cut, preVoteTerm: nat, preVoteMask: nat) {
    preVoteTerm == c.term + 1 ==> NoMajority(c, preVoteMask)
  }

  predicate Cornered(c: Cut, n: NodeState) {
    && Valid(n) && n.id in c.group && n.term <= c.term && AllCalm(c, n.outbound) && !IsQuorum(c.voters, c.group)
    && (!n.faulted ==> Still(c, n) && Blocked(c, n.preVoteTerm, n.preVoteMask))
  }

  // ----- Quorums of a still node -----

  lemma StillQuorum(c: Cut, n: NodeState, mask: nat)
    requires 0 < |n.log| && Still(c, n)
    ensures QuorumMask(n, mask) <==> IsQuorum(c.voters, Members(mask))
  {
    PlainVoters(n, Max(n.commit + 1, n.baseIndex + 1), LastIndex(n), Voters(n.votersOld, n.votersNew));
    MajorityMaskIsQuorum(n.votersOld, mask);
  }

  /** Nothing that the group says by itself is a majority. */
  lemma GroupIsNoMajority(c: Cut, mask: nat)
    requires !IsQuorum(c.voters, c.group) && Members(mask) <= c.group
    ensures NoMajority(c, mask) && !IsQuorum(c.voters, Members(mask))
  {
    assert Members(mask) + c.group == c.group;
    if IsQuorum(c.voters, Members(mask)) { QuorumGrows(c.voters, Members(mask), c.group); }
  }

  lemma SmallerIsNoMajority(c: Cut, mask: nat, more: nat)
    requires NoMajority(c, mask) && Members(more) <= Members(mask) + c.group
    ensures NoMajority(c, more) && !IsQuorum(c.voters, Members(more))
  {
    if IsQuorum(c.voters, Members(more) + c.group) { QuorumGrows(c.voters, Members(more) + c.group, Members(mask) + c.group); }
    if IsQuorum(c.voters, Members(more)) { QuorumGrows(c.voters, Members(more), Members(mask) + c.group); }
  }

  // ----- Sending -----

  lemma Queues(c: Cut, ms: seq<Message>, m: Message)
    requires AllCalm(c, ms) && Calm(c, m)
    ensures AllCalm(c, ms + [m])
  {
  }

  lemma EmitCornered(c: Cut, n: NodeState, m: Message)
    requires Cornered(c, n) && Calm(c, m)
    ensures Cornered(c, Emit(n, m))
  {
    hide Calm, PlainLog, VoterMaskIs, NoMajority, IsQuorum, Familiar;
    Queues(c, n.outbound, m);
  }

  lemma AppendToCornered(c: Cut, n: NodeState, peer: Id, context: nat)
    requires Cornered(c, n) && !n.faulted
    ensures Cornered(c, AppendToContext(n, peer, context))
  {
    hide VoterMaskIs, NoMajority, IsQuorum;
    var next := Lookup(n.next, peer);
    if next <= n.baseIndex {
      EmitCornered(c, n, SnapshotMessage(n, peer));
    } else if next > LastIndex(n) + 1 {
      EmitCornered(c, n.(next := n.next[peer := LastIndex(n) + 1]), AppendMessage(n, peer, LastIndex(n) + 1, context));
    } else {
      EmitCornered(c, n, AppendMessage(n, peer, next, context));
    }
  }

  lemma {:induction false} BroadcastCornered(c: Cut, n: NodeState, k: nat)
    requires Cornered(c, n) && !n.faulted && k <= |n.peers|
    ensures Cornered(c, BroadcastFrom(n, k))
    decreases |n.peers| - k
  {
    hide Cornered, AppendToContext, IsVoter;
    if k < |n.peers| {
      AppendToCornered(c, n, n.peers[k], 0);
      CorneredIsValid(c, n);
      BroadcastCornered(c, if IsVoter(n, n.peers[k]) then AppendToContext(n, n.peers[k], 0) else n, k + 1);
    }
  }

  lemma CorneredIsValid(c: Cut, n: NodeState)
    requires Cornered(c, n)
    ensures Valid(n) && n.id in c.group && n.term <= c.term
  {
  }

  lemma {:induction false} AskCornered(c: Cut, n: NodeState, kind: MessageType, term: nat, k: nat)
    requires Cornered(c, n) && !n.faulted && k <= |n.peers| && (kind == PreVote || (kind == RequestVote && term <= c.term))
    ensures Cornered(c, AskFrom(n, kind, term, k))
    decreases |n.peers| - k
  {
    hide Cornered;
    CorneredIsValid(c, n);
    if k < |n.peers| {
      var m := Blank(kind, n.id, n.peers[k], term).(logIndex := LastIndex(n), logTerm := TermAt(n, LastIndex(n)));
      EmitCornered(c, n, m);
      AskCornered(c, Emit(n, m), kind, term, k + 1);
    }
  }

  // ----- Changes that do not matter -----

  /** Nothing that containment depends on has changed but the log, which is still plain, and the
      term, which is still within bounds. */
  predicate Alike(c: Cut, n: NodeState, n': NodeState) {
    && Valid(n') && n'.id == n.id && n'.term <= c.term && n'.outbound == n.outbound && !n'.faulted
    && PlainLog(n'.log) && n'.votersOld == n.votersOld && n'.votersNew == n.votersNew
    && n'.pendingConfig == n.pendingConfig && n'.snapshot == n.snapshot
    && n'.preVoteTerm == n.preVoteTerm && n'.preVoteMask == n.preVoteMask
  }

  lemma AlikeCornered(c: Cut, n: NodeState, n': NodeState)
    requires Cornered(c, n) && !n.faulted && Alike(c, n, n')
    ensures Cornered(c, n')
  {
    hide PlainLog, VoterMaskIs, NoMajority, AllCalm, IsQuorum, Familiar;
  }

  lemma FailedCornered(c: Cut, n: NodeState, n': NodeState)
    requires Cornered(c, n) && n'.id == n.id && Valid(n') && n'.term <= c.term && n'.faulted && n'.outbound == []
    ensures Cornered(c, n')
  {
  }

  lemma CorneredFacts(c: Cut, n: NodeState)
    requires Cornered(c, n) && !n.faulted
    ensures Valid(n) && n.id in c.group && n.term <= c.term && Still(c, n) && Blocked(c, n.preVoteTerm, n.preVoteMask)
    ensures !IsQuorum(c.voters, c.group)
  {
  }

  // ----- Clock -----

  lemma StartPreVoteCornered(c: Cut, n: NodeState)
    requires Cornered(c, n) && !n.faulted
    ensures Cornered(c, StartPreVote(n)) && StartPreVote(n).term == n.term
  {
    hide Cornered, Still, QuorumMask, AskFrom, StartElection, NoMajority, Members, NodeBit, IsQuorum;
    CorneredFacts(c, n);
    var n1 := n.(elapsed := 0, preVoteTerm := n.term + 1, leader := 0, preVoteMask := NodeBit(n.id));
    BitMembers(n.id);
    GroupIsNoMajority(c, n1.preVoteMask);
    PreVoteReset(c, n, n1);
    AskCornered(c, n1, PreVote, n1.preVoteTerm, 0);
    var n2 := AskAll(n1, PreVote, n1.preVoteTerm);
    CorneredFacts(c, n2);
    StillQuorum(c, n2, n2.preVoteMask);
  }

  lemma PreVoteReset(c: Cut, n: NodeState, n': NodeState)
    requires Cornered(c, n) && !n.faulted && Blocked(c, n'.preVoteTerm, n'.preVoteMask)
    requires n' == n.(elapsed := n'.elapsed, preVoteTerm := n'.preVoteTerm, leader := n'.leader, preVoteMask := n'.preVoteMask)
    ensures Cornered(c, n')
  {
    hide PlainLog, VoterMaskIs, NoMajority, AllCalm, IsQuorum, Familiar;
  }

  /** An election up to the largest term, which the group alone cannot win. */
  lemma StartElectionCornered(c: Cut, n: NodeState)
    requires Cornered(c, n) && !n.faulted && n.term + 1 <= c.term
    ensures Cornered(c, StartElection(n))
  {
    hide Cornered, Still, QuorumMask, AskFrom, BecomeLeader, NoMajority, Members, NodeBit, IsQuorum, S.SaveHardState;
    CorneredFacts(c, n);
    var n1 := Persist(n, HardState(n.term + 1, n.id, n.commit));
    if n1.faulted {
      FailedCornered(c, n, n1);
    } else {
      var n2 := n1.(state := Candidate, term := n.term + 1, votedFor := n.id, elapsed := 0, voteMask := NodeBit(n.id), preVoteMask := 0);
      ZeroMembers();
      GroupIsNoMajority(c, 0);
      Campaigns(c, n, n2);
      AskCornered(c, n2, RequestVote, n2.term, 0);
      var n3 := AskAll(n2, RequestVote, n2.term);
      CorneredFacts(c, n3);
      BitMembers(n.id);
      GroupIsNoMajority(c, NodeBit(n.id));
      StillQuorum(c, n3, n3.voteMask);
    }
  }

  lemma Campaigns(c: Cut, n: NodeState, n': NodeState)
    requires Cornered(c, n) && !n.faulted && NoMajority(c, n'.preVoteMask) && n'.term <= c.term
    requires n' == n.(disk := n'.disk, state := n'.state, term := n'.term, votedFor := n'.votedFor, elapsed := n'.elapsed,
                      voteMask := n'.voteMask, preVoteMask := n'.preVoteMask)
    ensures Cornered(c, n')
  {
    hide PlainLog, VoterMaskIs, NoMajority, AllCalm, IsQuorum, Familiar;
  }

  lemma TickCornered(c: Cut, n: NodeState)
    requires Cornered(c, n)
    ensures Valid(n) && Cornered(c, Tick(n))
  {
    hide Cornered, StartPreVote, BroadcastFrom;
    CorneredIsValid(c, n);
    if !n.faulted {
      var n1 := n.(elapsed := n.elapsed + 1);
      CorneredFacts(c, n);
      AlikeCornered(c, n, n1);
      if n1.state == Leader {
        AlikeCornered(c, n, n1.(elapsed := 0));
        BroadcastCornered(c, n1.(elapsed := 0), 0);
      } else {
        StartPreVoteCornered(c, n1);
      }
    }
  }

  // ----- Votes -----

  lemma PreVotesCornered(c: Cut, n: NodeState, m: Message)
    requires Cornered(c, n) && !n.faulted && Calm(c, m)
    ensures Valid(n) && Cornered(c, OnPreVote(n, m)) && Cornered(c, OnPreVoteResponse(n, m))
  {
    hide Cornered, Still, QuorumMask, StartElection, NoMajority, Members, NodeBit, Or, IsVoter, AsUpToDate, IsQuorum;
    CorneredFacts(c, n);
    EmitCornered(c, n, OnPreVote(n, m).outbound[|n.outbound|]);
    var n1 := n.(preVoteMask := Or(n.preVoteMask, NodeBit(m.from)));
    OrMembers(n.preVoteMask, NodeBit(m.from));
    BitMembers(m.from);
    if n.preVoteTerm == c.term + 1 { SmallerIsNoMajority(c, n.preVoteMask, n1.preVoteMask); }
    PreVoteReset(c, n, n1);
    CorneredFacts(c, n1);
    StillQuorum(c, n1, n1.preVoteMask);
    if m.term == n.term + 1 == n.preVoteTerm <= c.term { StartElectionCornered(c, n1); }
  }

  lemma AdoptTermCornered(c: Cut, n: NodeState, m: Message)
    requires Cornered(c, n) && !n.faulted && Calm(c, m)
    ensures Valid(n) && Cornered(c, AdoptTerm(n, m))
  {
    hide Cornered, Still;
    CorneredFacts(c, n);
    Plain(c, n);
    var r := AdoptTerm(n, m);
    if r.faulted { FailedCornered(c, n, r); } else { AlikeCornered(c, n, r); }
  }

  lemma Plain(c: Cut, n: NodeState)
    requires Still(c, n)
    ensures PlainLog(n.log) && n.pendingConfig == 0 && Familiar(c, n.snapshot)
  {
  }

  lemma OnVoteCornered(c: Cut, n: NodeState, m: Message)
    requires Cornered(c, n) && !n.faulted && Calm(c, m)
    ensures Valid(n) && Cornered(c, OnVote(n, m))
  {
    hide Cornered, Still, GrantsVote;
    CorneredFacts(c, n);
    Plain(c, n);
    if GrantsVote(n, m) {
      var n1 := Persist(n, HardState(n.term, m.from, n.commit));
      if n1.faulted {
        FailedCornered(c, n, n1);
      } else {
        AlikeCornered(c, n, n1.(votedFor := m.from, elapsed := 0));
        EmitCornered(c, n1.(votedFor := m.from, elapsed := 0), Blank(RequestVoteResponse, n.id, m.from, n.term));
      }
    } else {
      EmitCornered(c, n, Blank(RequestVoteResponse, n.id, m.from, n.term).(reject := true));
    }
  }

  lemma AppendLocalCornered(c: Cut, n: NodeState, e: Entry)
    requires Cornered(c, n) && !n.faulted && PlainEntry(e)
    ensures Valid(n) && Cornered(c, AppendLocal(n, e))
  {
    hide Cornered, Still, QuorumMask, NodeBit, ApplyFrom, S.Append, S.SaveHardState;
    CorneredFacts(c, n);
    Plain(c, n);
    var n1 := Settle(n, S.Append(n.disk, LastIndex(n) + 1, e));
    if n1.faulted {
      FailedCornered(c, n, n1);
    } else {
      var n2 := n1.(log := n1.log + [e]);
      AlikeCornered(c, n, n2);
      if QuorumMask(n2, NodeBit(n2.id)) { LocalCommitCornered(c, n2, n.commit); }
    }
  }

  lemma LocalCommitCornered(c: Cut, n: NodeState, commit: nat)
    requires Cornered(c, n) && !n.faulted
    ensures Valid(n)
    ensures var n1 := Persist(n.(commit := LastIndex(n)), HardState(n.term, n.votedFor, LastIndex(n)));
      Valid(n1) && Cornered(c, if n1.faulted then n1.(commit := commit) else ApplyCommittedConfigurations(n1, commit + 1, n1.commit))
  {
    hide Cornered, Still, ApplyFrom, S.SaveHardState;
    CorneredFacts(c, n);
    Plain(c, n);
    var n1 := Persist(n.(commit := LastIndex(n)), HardState(n.term, n.votedFor, LastIndex(n)));
    if n1.faulted {
      FailedCornered(c, n, n1.(commit := commit));
    } else {
      FixedApply(n1, Max(commit + 1, n1.baseIndex + 1), n1.commit);
      AlikeCornered(c, n, n1);
    }
  }

  lemma OnVoteResponseCornered(c: Cut, n: NodeState, m: Message)
    requires Cornered(c, n) && !n.faulted && Calm(c, m)
    ensures Valid(n) && Cornered(c, OnVoteResponse(n, m))
  {
    hide Cornered, Still, QuorumMask, NodeBit, Or, IsVoter, AppendLocal, BroadcastFrom, ResetPeersFrom;
    CorneredFacts(c, n);
    Plain(c, n);
    var n1 := n.(voteMask := Or(n.voteMask, NodeBit(m.from)));
    AlikeCornered(c, n, n1);
    var n2 := n1.(state := Leader, leader := n1.id, elapsed := 0);
    AlikeCornered(c, n, n2);
    AppendLocalCornered(c, n2, ZERO_ENTRY.(term := n1.term, kind := Noop));
    var n3 := AppendLocal(n2, ZERO_ENTRY.(term := n1.term, kind := Noop));
    if !n3.faulted {
      var n4 := ResetPeersFrom(n3, LastIndex(n3) + 1, 0);
      CorneredFacts(c, n3);
      Plain(c, n3);
      AlikeCornered(c, n3, n4);
      BroadcastCornered(c, n4, 0);
    }
  }

  // ----- Replication -----

  lemma ClearedCornered(c: Cut, n: NodeState, at: nat, e: Entry)
    requires Cornered(c, n) && !n.faulted && n.baseIndex < at
    ensures Valid(n) && Cornered(c, Cleared(n, at, e)) && !Cleared(n, at, e).faulted
  {
    hide Cornered, Still, RebuildFrom;
    CorneredFacts(c, n);
    Plain(c, n);
    if InLog(n, at) && TermAt(n, at) != e.term {
      var cut := n.(log := n.log[..at - n.baseIndex]);
      FixedRebuild(cut.(pendingConfig := 0), Max(n.commit + 1, n.baseIndex + 1));
      AlikeCornered(c, n, cut);
    }
  }

  lemma StoreEntryCornered(c: Cut, n: NodeState, at: nat, e: Entry)
    requires Cornered(c, n) && !n.faulted && PlainEntry(e) && n.baseIndex < at
    ensures Valid(n) && Cornered(c, StoreEntry(n, at, e))
  {
    hide Cornered, Still, Cleared, S.Append;
    ClearedCornered(c, n, at, e);
    var n1 := Cleared(n, at, e);
    CorneredFacts(c, n1);
    Plain(c, n1);
    var r := AppendAt(n1, at, e);
    if r.faulted { FailedCornered(c, n1, r); } else { AlikeCornered(c, n1, r); }
  }

  lemma FollowCommitCornered(c: Cut, n: NodeState, m: Message)
    requires Cornered(c, n) && !n.faulted
    ensures Valid(n) && Cornered(c, FollowCommit(n, m))
  {
    hide Cornered, Still, ApplyFrom;
    CorneredFacts(c, n);
    Plain(c, n);
    if m.commit > n.commit && MatchedIndex(m) > n.commit {
      var k := Min(m.commit, MatchedIndex(m));
      CommitCornered(c, n, k);
    }
  }

  /** A commit index made durable and applied; no configuration entry is among what commits. */
  lemma CommitCornered(c: Cut, n: NodeState, k: nat)
    requires Cornered(c, n) && !n.faulted && n.commit < k
    ensures var n1 := Persist(n, HardState(n.term, n.votedFor, k));
      && Valid(n1) && (n1.faulted ==> n1.state == Follower) && Cornered(c, if n1.faulted then n1 else ApplyCommittedConfigurations(n1.(commit := k), n.commit + 1, k))
  {
    hide Cornered, Still, ApplyFrom;
    CorneredFacts(c, n);
    Plain(c, n);
    var n1 := Persist(n, HardState(n.term, n.votedFor, k));
    if n1.faulted {
      FailedCornered(c, n, n1);
    } else {
      FixedApply(n1.(commit := k), Max(n.commit + 1, n.baseIndex + 1), k);
      AlikeCornered(c, n, n1.(commit := k));
    }
  }

  lemma OnAppendCornered(c: Cut, n: NodeState, m: Message)
    requires Cornered(c, n) && !n.faulted && Calm(c, m) && m.kind == Append
    ensures Valid(n) && Cornered(c, OnAppend(n, m))
  {
    hide Cornered, Still, StoreEntry, FollowCommit, ValidNewEntry;
    CorneredFacts(c, n);
    Plain(c, n);
    if RejectsAppend(n, m) {
      EmitCornered(c, n, Blank(AppendResponse, n.id, m.from, n.term).(reject := true, acked := LastIndex(n), context := m.context));
    } else {
      var n1 := n.(state := Follower, leader := m.from, elapsed := 0);
      AlikeCornered(c, n, n1);
      if m.hasEntry { StoreEntryCornered(c, n1, m.logIndex + 1, m.entry); }
      var n2 := if m.hasEntry then StoreEntry(n1, m.logIndex + 1, m.entry) else n1;
      if !n2.faulted {
        FollowCommitCornered(c, n2, m);
        var n3 := FollowCommit(n2, m);
        if !n3.faulted {
          CorneredFacts(c, n3);
          EmitCornered(c, n3, Blank(AppendResponse, n3.id, m.from, n3.term).(reject := false, acked := MatchedIndex(m), context := m.context));
        }
      }
    }
  }

  lemma ConfirmCornered(c: Cut, n: NodeState, peer: Id)
    requires Cornered(c, n) && !n.faulted
    ensures Valid(n) && Cornered(c, Confirm(n, peer))
  {
    hide Cornered, Still, AppendToContext, FindCommittable, BroadcastFrom, Persist, ApplyCommittedConfigurations;
    CorneredFacts(c, n);
    var found := FindCommittable(n, LastIndex(n));
    if found.Some? {
      CommitCornered(c, n, found.value);
      var n1 := Persist(n, HardState(n.term, n.votedFor, found.value));
      if !n1.faulted {
        var n2 := ApplyCommittedConfigurations(n1.(commit := found.value), n.commit + 1, found.value);
        if n2.state == Leader { BroadcastCornered(c, n2, 0); }
      }
    }
    var r := AdvanceCommit(n);
    if !r.faulted { AppendToCornered(c, r, peer, 0); }
  }

  lemma OnAppendResponseCornered(c: Cut, n: NodeState, m: Message)
    requires Cornered(c, n) && !n.faulted && Calm(c, m)
    ensures Valid(n) && Cornered(c, OnAppendResponse(n, m))
  {
    hide Cornered, Still, CountReadAck, Confirm, AppendToContext;
    CorneredFacts(c, n);
    Plain(c, n);
    var n1 := CountReadAck(n, m);
    AlikeCornered(c, n, n1);
    var next := Lookup(n1.next, m.from);
    AlikeCornered(c, n, n1.(next := n1.next[m.from := if next > 1 then next - 1 else next]));
    AppendToCornered(c, if next > 1 then n1.(next := n1.next[m.from := next - 1]) else n1, m.from, 0);
    AlikeCornered(c, n, RecordMatch(n1, m.from, m.acked));
    ConfirmCornered(c, RecordMatch(n1, m.from, m.acked), m.from);
  }

  lemma TakeSnapshotCornered(c: Cut, n: NodeState, s: Snapshot)
    requires Cornered(c, n) && !n.faulted && s.oldVoters != 0 && Familiar(c, s)
    ensures Valid(n) && Cornered(c, TakeSnapshot(n, s))
  {
    hide S.SaveSnapshot, S.CompactLog, VoterMaskIs, NoMajority, AllCalm, IsQuorum;
    if TakeSnapshot(n, s).faulted { FailedCornered(c, n, TakeSnapshot(n, s)); }
  }

  lemma OnInstallSnapshotCornered(c: Cut, n: NodeState, m: Message)
    requires Cornered(c, n) && !n.faulted && Calm(c, m) && m.kind == InstallSnapshot
    ensures Valid(n) && Cornered(c, OnInstallSnapshot(n, m))
  {
    hide Cornered, Still, TakeSnapshot, Familiar;
    CorneredFacts(c, n);
    Plain(c, n);
    var reject := RejectsSnapshot(n, m);
    var take := !reject && m.snapshot.lastIndex > n.baseIndex;
    if take { TakeSnapshotCornered(c, n, m.snapshot); }
    var n1 := if take then TakeSnapshot(n, m.snapshot) else n;
    if !n1.faulted {
      CorneredFacts(c, n1);
      Plain(c, n1);
      var n2 := if reject then n1 else n1.(state := Follower, leader := m.from, elapsed := 0);
      AlikeCornered(c, n1, n2);
      EmitCornered(c, n2, Blank(InstallSnapshotResponse, n2.id, m.from, n2.term).(reject := reject, acked := n2.baseIndex));
    }
  }

  lemma OnInstallSnapshotResponseCornered(c: Cut, n: NodeState, m: Message)
    requires Cornered(c, n) && !n.faulted && Calm(c, m)
    ensures Valid(n) && Cornered(c, OnInstallSnapshotResponse(n, m))
  {
    hide Cornered, Still, IsVoter, AppendToContext;
    CorneredFacts(c, n);
    Plain(c, n);
    var n1 := n.(matched := n.matched[m.from := m.acked], next := n.next[m.from := m.acked + 1]);
    AlikeCornered(c, n, n1);
    AppendToCornered(c, n, m.from, 0);
    AppendToCornered(c, n1, m.from, 0);
  }

  lemma StepCornered(c: Cut, n: NodeState, m: Message)
    requires Cornered(c, n) && Calm(c, m)
    ensures Valid(n) && Cornered(c, Step(n, m))
  {
    hide Cornered, AdoptTerm, OnPreVote, OnPreVoteResponse, OnVote, OnVoteResponse, OnAppend, OnAppendResponse, OnInstallSnapshot,
      OnInstallSnapshotResponse, StartElection, PlainEntry;
    CorneredIsValid(c, n);
    if !n.faulted {
      AdoptTermCornered(c, n, m);
      var n1 := AdoptTerm(n, m);
      if !n1.faulted {
        CorneredIsValid(c, n1);
        match m.kind {
          case PreVote => PreVotesCornered(c, n1, m);
          case PreVoteResponse => PreVotesCornered(c, n1, m);
          case RequestVote => OnVoteCornered(c, n1, m);
          case RequestVoteResponse => OnVoteResponseCornered(c, n1, m);
          case Append => OnAppendCornered(c, n1, m);
          case AppendResponse => OnAppendResponseCornered(c, n1, m);
          case InstallSnapshot => OnInstallSnapshotCornered(c, n1, m);
          case InstallSnapshotResponse => OnInstallSnapshotResponseCornered(c, n1, m);
        }
      }
    }
  }

  // ----- Whole runs -----

  datatype Group = Group(nodes: map<Id, NodeState>, network: set<Message>)

  /** One clock tick, delivery or drain, with a plan for the writes it makes. */
  datatype Event = Clock(id: Id, budget: nat, kept: bool) | Deliver(m: Message, budget: nat, kept: bool) | Collect(id: Id)

  predicate Enabled(g: Group, e: Event) {
    match e
    case Clock(id, _, _) => id in g.nodes && Valid(g.nodes[id])
    case Deliver(m, _, _) => m in g.network && m.to in g.nodes && Valid(g.nodes[m.to]) && NodeId(m.from)
    case Collect(id) => id in g.nodes
  }

  function Planned(n: NodeState, budget: nat, kept: bool): NodeState {
    n.(disk := n.disk.(budget := budget, kept := kept))
  }

  /** A collected message that leaves the group is lost. */
  function Next(g: Group, e: Event): Group
    requires Enabled(g, e)
  {
    match e
    case Clock(id, budget, kept) => g.(nodes := g.nodes[id := Tick(Planned(g.nodes[id], budget, kept))])
    case Deliver(m, budget, kept) => g.(nodes := g.nodes[m.to := Step(Planned(g.nodes[m.to], budget, kept), m)])
    case Collect(id) =>
      Group(g.nodes[id := Drain(g.nodes[id])], g.network + set m | m in g.nodes[id].outbound && m.to in g.nodes)
  }

  predicate GroupOk(c: Cut, g: Group) {
    && g.nodes.Keys == c.group
    && (forall v :: v in g.nodes ==> g.nodes[v].id == v && Cornered(c, g.nodes[v]))
    && (forall m :: m in g.network ==> Calm(c, m))
  }

  ghost predicate Run(states: seq<Group>, events: seq<Event>) {
    && |states| == |events| + 1
    && (forall i :: 0 <= i < |events| ==> Enabled(states[i], events[i]) && states[i + 1] == Next(states[i], events[i]))
  }

  lemma PlannedCornered(c: Cut, n: NodeState, budget: nat, kept: bool)
    requires Cornered(c, n)
    ensures Cornered(c, Planned(n, budget, kept)) && Cornered(c, Drain(n)) && AllCalm(c, n.outbound)
  {
    hide PlainLog, VoterMaskIs, NoMajority, Calm;
  }

  lemma NextOk(c: Cut, g: Group, e: Event)
    requires GroupOk(c, g) && Enabled(g, e)
    ensures GroupOk(c, Next(g, e))
  {
    hide Cornered, Calm, Tick, Step;
    match e {
      case Clock(id, budget, kept) =>
        PlannedCornered(c, g.nodes[id], budget, kept);
        TickCornered(c, Planned(g.nodes[id], budget, kept));
      case Deliver(m, budget, kept) =>
        PlannedCornered(c, g.nodes[m.to], budget, kept);
        StepCornered(c, Planned(g.nodes[m.to], budget, kept), m);
      case Collect(id) => PlannedCornered(c, g.nodes[id], 0, false);
    }
  }

  /** No run of ticks and deliveries inside the group raises its largest term. */
  lemma {:induction false} Containment(c: Cut, states: seq<Group>, events: seq<Event>, i: nat, v: Id)
    requires Run(states, events) && i < |states| && GroupOk(c, states[0]) && v in c.group
    ensures GroupOk(c, states[i]) && v in states[i].nodes && states[i].nodes[v].term <= c.term
    decreases i
  {
    hide Cornered, Calm, Enabled, Next;
    if i > 0 {
      Containment(c, states, events, i - 1, v);
      NextOk(c, states[i - 1], events[i - 1]);
    }
    CorneredIsValid(c, states[i].nodes[v]);
  }

  // ----- Why pre-votes held from before count -----

  lemma AppendLocalTerm(n: NodeState, e: Entry)
    requires Valid(n)
    ensures AppendLocal(n, e).term == n.term
  {
    hide QuorumMask, ApplyFrom, S.Append, S.SaveHardState, NodeBit;
  }

  lemma BecomeLeaderTerm(n: NodeState)
    requires Valid(n)
    ensures BecomeLeader(n).term == n.term
  {
    hide AppendLocal, BroadcastFrom, ResetPeersFrom;
    AppendLocalTerm(n.(state := Leader, leader := n.id, elapsed := 0), ZERO_ENTRY.(term := n.term, kind := Noop));
  }

  lemma Elected(n: NodeState)
    requires Valid(n) && !n.faulted && n.disk.budget > 0
    requires n.disk.wal.hard.term <= n.term && n.disk.wal.hard.commit <= n.commit
    ensures StartElection(n).term == n.term + 1
  {
    hide QuorumMask, BecomeLeader, AskFrom, NodeBit;
    var n1 := Persist(n, HardState(n.term + 1, n.id, n.commit));
    assert n1 == n.(disk := n1.disk);
    var n2 := n1.(state := Candidate, term := n.term + 1, votedFor := n.id, elapsed := 0, voteMask := NodeBit(n.id), preVoteMask := 0);
    BecomeLeaderTerm(AskAll(n2, RequestVote, n2.term));
  }

  lemma StillVoter(c: Cut, n: NodeState, id: Id)
    requires 0 < |n.log| && Still(c, n) && NodeId(id)
    ensures IsVoter(n, id) <==> id in c.voters
  {
    PlainVoters(n, Max(n.commit + 1, n.baseIndex + 1), LastIndex(n), Voters(n.votersOld, n.votersNew));
    OrMembers(n.votersOld, 0);
    BitTest(n.votersOld, id);
  }

  /** A granted pre-vote raises a node's term exactly when the voters it has now heard from,
      inside its group or not, are a majority. */
  lemma RaisesExactly(c: Cut, n: NodeState, m: Message)
    requires Valid(n) && !n.faulted && Still(c, n) && n.state != Leader && n.disk.budget > 0
    requires n.disk.wal.hard.term <= n.term && n.disk.wal.hard.commit <= n.commit
    requires m.kind == PreVoteResponse && NodeId(m.from) && !m.reject && m.term == n.term + 1 == n.preVoteTerm
    ensures Step(n, m).term > n.term <==> m.from in c.voters && IsQuorum(c.voters, Members(n.preVoteMask) + {m.from})
  {
    hide Still, QuorumMask, StartElection, NodeBit, Or, IsVoter, Members, IsQuorum;
    StillVoter(c, n, m.from);
    var n1 := n.(preVoteMask := Or(n.preVoteMask, NodeBit(m.from)));
    StillAfter(c, n, n1);
    StillQuorum(c, n1, n1.preVoteMask);
    OrMembers(n.preVoteMask, NodeBit(m.from));
    BitMembers(m.from);
    Elected(n1);
  }

  lemma StillAfter(c: Cut, n: NodeState, n1: NodeState)
    requires Still(c, n) && n1 == n.(preVoteMask := n1.preVoteMask)
    ensures Still(c, n1)
  {
  }

  lemma TickAsks(c: Cut, n: NodeState)
    requires Valid(n) && !n.faulted && Still(c, n) && n.state != Leader && n.elapsed + 1 >= n.timeout && !IsQuorum(c.voters, {n.id})
    ensures var r := Tick(n);
      r == n.(elapsed := 0, preVoteTerm := n.term + 1, leader := 0, preVoteMask := NodeBit(n.id), outbound := r.outbound)
  {
    hide Still, QuorumMask, AskFrom, StartElection, NodeBit, Members, IsQuorum;
    var n1 := n.(elapsed := 0, preVoteTerm := n.term + 1, leader := 0, preVoteMask := NodeBit(n.id));
    var n2 := AskAll(n1, PreVote, n1.preVoteTerm);
    StillStays(c, n, n2);
    BitMembers(n.id);
    StillQuorum(c, n2, n2.preVoteMask);
  }

  lemma StillStays(c: Cut, n: NodeState, n1: NodeState)
    requires Still(c, n)
    requires n1 == n.(elapsed := n1.elapsed, preVoteTerm := n1.preVoteTerm, leader := n1.leader, preVoteMask := n1.preVoteMask, outbound := n1.outbound)
    ensures Still(c, n1)
  {
  }

  lemma PreVoteCounts(c: Cut, n: NodeState, m: Message)
    requires Valid(n) && !n.faulted && Still(c, n) && n.state != Leader && m.from in c.voters
    requires m.kind == PreVoteResponse && NodeId(m.from) && !m.reject && m.term == n.term + 1 == n.preVoteTerm
    requires !IsQuorum(c.voters, Members(n.preVoteMask) + {m.from})
    ensures var r := Step(n, m); r == n.(preVoteMask := r.preVoteMask) && Members(r.preVoteMask) == Members(n.preVoteMask) + {m.from}
  {
    hide Still, QuorumMask, StartElection, NodeBit, Or, IsVoter, Members, IsQuorum;
    StillVoter(c, n, m.from);
    var n1 := n.(preVoteMask := Or(n.preVoteMask, NodeBit(m.from)));
    StillAfter(c, n, n1);
    StillQuorum(c, n1, n1.preVoteMask);
    OrMembers(n.preVoteMask, NodeBit(m.from));
    BitMembers(m.from);
  }

  const FIVE: set<Id> := {1, 2, 3, 4, 5}

  lemma FiveNodes(timeout: nat, disk: S.Disk)
    ensures Still(Cut({1, 2}, FIVE, 0), NewNode(1, [2, 3, 4, 5], timeout, disk))
  {
    hide MaskFrom, NodeBit, Members, Pow2;
    assert (set p | p in [2, 3, 4, 5]) == FIVE - {1};
    NewNodeFixed(1, [2, 3, 4, 5], timeout, disk, FIVE);
  }

  lemma Minorities()
    ensures !IsQuorum(FIVE, {1}) && !IsQuorum(FIVE, {1, 2}) && !IsQuorum(FIVE, {1, 3}) && IsQuorum(FIVE, {1, 2, 3})
  {
    assert FIVE * {1} == {1} && FIVE * {1, 2} == {1, 2} && FIVE * {1, 3} == {1, 3} && FIVE * {1, 2, 3} == {1, 2, 3};
  }

  /**
   * A node of five times out and hears one pre-vote, from node 3.  Then it is cut off with node 2
   * alone, which is no majority; yet the pre-vote of node 2 makes it raise its term.
   */
  lemma LeftoverPreVotes(n0: NodeState) returns (n1: NodeState, n2: NodeState, n3: NodeState)
    requires n0 == NewNode(1, [2, 3, 4, 5], 1, S.FRESH.(budget := 1))
    ensures n1 == Tick(n0) && n2 == Step(n1, Blank(PreVoteResponse, 3, 1, 1)) && n3 == Step(n2, Blank(PreVoteResponse, 2, 1, 1))
    ensures !IsQuorum(FIVE, {1, 2}) && n2.term == 0 && n3.term == 1
  {
    hide Still, Tick, Step, NewNode, IsQuorum, Members, NodeBit, Pow2;
    var c := Cut({1, 2}, FIVE, 0);
    FiveNodes(1, S.FRESH.(budget := 1));
    Minorities();
    StartOfFive(n0);
    TickAsks(c, n0);
    n1 := Tick(n0);
    StillStays(c, n0, n1);
    BitMembers(1);
    var m, m' := Blank(PreVoteResponse, 3, 1, 1), Blank(PreVoteResponse, 2, 1, 1);
    assert {1} + {3} == {1, 3};
    PreVoteCounts(c, n1, m);
    n2 := Step(n1, m);
    StillAfter(c, n1, n2);
    assert {1, 3} + {2} == {1, 2, 3};
    RaisesExactly(c, n2, m');
    n3 := Step(n2, m');
    RaisedByOne(n2, m');
  }

  lemma StartOfFive(n: NodeState)
    requires n == NewNode(1, [2, 3, 4, 5], 1, S.FRESH.(budget := 1))
    ensures Valid(n) && !n.faulted && n.state == Follower && n.term == 0 && n.elapsed == 0 && n.timeout == 1 && n.id == 1 && n.commit == 0
    ensures n.disk == S.FRESH.(budget := 1)
  {
    hide MaskFrom, NodeBit, Pow2;
  }

  lemma RaisedByOne(n: NodeState, m: Message)
    requires Valid(n) && !n.faulted && m.kind == PreVoteResponse && NodeId(m.from)
    ensures Step(n, m).term <= n.term + 1
  {
    hide StartElection, QuorumMask, IsVoter, Or, NodeBit;
    ElectionRaises(n.(preVoteMask := Or(n.preVoteMask, NodeBit(m.from))));
  }

  lemma ElectionRaises(n: NodeState)
    requires Valid(n) && !n.faulted
    ensures StartElection(n).term <= n.term + 1
  {
    hide QuorumMask, BecomeLeader, AskFrom, NodeBit, S.SaveHardState;
    var n1 := Persist(n, HardState(n.term + 1, n.id, n.commit));
    if !n1.faulted {
      var n2 := n1.(state := Candidate, term := n.term + 1, votedFor := n.id, elapsed := 0, voteMask := NodeBit(n.id), preVoteMask := 0);
      BecomeLeaderTerm(AskAll(n2, RequestVote, n2.term));
    }
  }
}
