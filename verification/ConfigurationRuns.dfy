/** Every public call of a node with an uncompacted log keeps its configuration in step with its log. */
module ConfigurationRuns {
  import opened Quorums
  import opened Bits
  import opened RaftTypes
  import opened NodeModel
  import opened Configuration
  import D = NodeDurability
  import S = StableStore

  ghost predicate Keeps(v: Voters, n: NodeState) {
    n.faulted || ConfigOk(v, n)
  }

  // ----- Elections -----

  lemma BecomeLeaderKeeps(v: Voters, n: NodeState)
    requires Valid(n) && !n.faulted && ConfigOk(v, n)
    ensures Keeps(v, BecomeLeader(n))
  {
    hide Agrees, AppendLocal, BroadcastFrom, ResetPeersFrom;
    AppendLocalConfig(v, n.(state := Leader, leader := n.id, elapsed := 0), ZERO_ENTRY.(term := n.term, kind := Noop));
  }

  lemma StartElectionKeeps(v: Voters, n: NodeState)
    requires Valid(n) && !n.faulted && ConfigOk(v, n)
    ensures Keeps(v, StartElection(n))
  {
    hide Agrees, BecomeLeader, QuorumMask, AskAll, NodeBit;
    var n1 := Persist(n, HardState(n.term + 1, n.id, n.commit));
    if !n1.faulted {
      var n2 := n1.(state := Candidate, term := n.term + 1, votedFor := n.id, elapsed := 0, voteMask := NodeBit(n.id), preVoteMask := 0);
      var n3 := AskAll(n2, RequestVote, n2.term);
      if QuorumMask(n3, n3.voteMask) { BecomeLeaderKeeps(v, n3); }
    }
  }

  lemma StartPreVoteKeeps(v: Voters, n: NodeState)
    requires Valid(n) && !n.faulted && ConfigOk(v, n)
    ensures Keeps(v, StartPreVote(n))
  {
    hide Agrees, StartElection, QuorumMask, AskAll, NodeBit;
    var n1 := n.(elapsed := 0, preVoteTerm := n.term + 1, leader := 0, preVoteMask := NodeBit(n.id));
    var n2 := AskAll(n1, PreVote, n1.preVoteTerm);
    if QuorumMask(n2, n2.preVoteMask) { StartElectionKeeps(v, n2); }
  }

  lemma TickKeeps(v: Voters, n: NodeState)
    requires Valid(n) && Keeps(v, n)
    ensures Keeps(v, Tick(n))
  {
    hide Agrees, StartPreVote, BroadcastAppend;
    if !n.faulted && n.state != Leader && n.elapsed + 1 >= n.timeout { StartPreVoteKeeps(v, n.(elapsed := n.elapsed + 1)); }
  }

  lemma VotesKeep(v: Voters, n: NodeState, m: Message)
    requires Valid(n) && !n.faulted && ConfigOk(v, n) && NodeId(m.from)
    ensures Keeps(v, OnPreVote(n, m)) && Keeps(v, OnPreVoteResponse(n, m)) && Keeps(v, OnVoteResponse(n, m)) && Keeps(v, OnVote(n, m))
  {
    hide Agrees, StartElection, BecomeLeader, QuorumMask, IsVoter, AsUpToDate, Or, NodeBit;
    StartElectionKeeps(v, n.(preVoteMask := Or(n.preVoteMask, NodeBit(m.from))));
    BecomeLeaderKeeps(v, n.(voteMask := Or(n.voteMask, NodeBit(m.from))));
  }

  // ----- Replication -----

  /** The entry a message stores lies above the commit index and passed the check on new entries. */
  predicate Vetted(n: NodeState, m: Message)
    requires Valid(n)
  {
    m.hasEntry && n.baseIndex <= m.logIndex && !RejectsAppend(n, m) ==>
      var at := m.logIndex + 1;
      if at <= n.commit then InLog(n, at) && TermAt(n, at) == m.entry.term
      else at == LastIndex(Cleared(n, at, m.entry)) + 1 ==> ValidNewEntry(Cleared(n, at, m.entry), m.entry)
  }

  lemma OnAppendKeeps(v: Voters, n: NodeState, m: Message)
    requires Valid(n) && !n.faulted && ConfigOk(v, n) && NodeId(m.from) && Vetted(n, m)
    ensures Keeps(v, OnAppend(n, m))
  {
    hide Agrees, StoreEntry, FollowCommit, ValidNewEntry;
    Bounds(v, n);
    if !RejectsAppend(n, m) {
      var n1 := n.(state := Follower, leader := m.from, elapsed := 0);
      if m.hasEntry { StoreKeeps(v, n, n1, m); }
      var n2 := if m.hasEntry then StoreEntry(n1, m.logIndex + 1, m.entry) else n1;
      if !n2.faulted { FollowCommitConfig(v, n2, m); }
    }
  }

  lemma StoreKeeps(v: Voters, n: NodeState, n1: NodeState, m: Message)
    requires Valid(n) && !n.faulted && ConfigOk(v, n) && Vetted(n, m) && !RejectsAppend(n, m) && m.hasEntry
    requires n1 == n.(state := n1.state, leader := n1.leader, elapsed := n1.elapsed)
    ensures n.baseIndex <= m.logIndex
    ensures var r := StoreEntry(n1, m.logIndex + 1, m.entry); !r.faulted ==> ConfigOk(v, r) && m.logIndex + 1 <= LastIndex(r)
  {
    hide Agrees, StoreEntry, Cleared, ValidNewEntry;
    Bounds(v, n);
    var at := m.logIndex + 1;
    StoredAt(n1, at, m.entry);
    if at > n.commit {
      SameCleared(n, n1, at, m.entry);
      StoreEntryConfig(v, n1, at, m.entry);
    }
  }

  lemma StoredAt(n: NodeState, at: nat, e: Entry)
    requires Valid(n) && n.baseIndex < at <= LastIndex(n) + 1 && !n.faulted
    ensures var r := StoreEntry(n, at, e); !r.faulted ==> at <= LastIndex(r)
    ensures InLog(n, at) && TermAt(n, at) == e.term ==> StoreEntry(n, at, e) == n
  {
    hide AppendAt, RebuildPendingConfig;
    AppendedAt(Cleared(n, at, e), at, e);
  }

  lemma AppendedAt(n: NodeState, at: nat, e: Entry)
    requires Valid(n) && at <= LastIndex(n) + 1
    ensures var r := AppendAt(n, at, e); !r.faulted ==> at <= LastIndex(r)
    ensures at <= LastIndex(n) ==> AppendAt(n, at, e) == n
  {
    hide S.Append, EnsurePeers, Or;
  }

  /** Who leads does not matter to what a conflicting suffix leaves. */
  lemma SameCleared(n: NodeState, n1: NodeState, at: nat, e: Entry)
    requires Valid(n) && n.baseIndex < at <= LastIndex(n) + 1
    requires n1 == n.(state := n1.state, leader := n1.leader, elapsed := n1.elapsed)
    ensures var a, b := Cleared(n, at, e), Cleared(n1, at, e);
      LastIndex(a) == LastIndex(b) && (ValidNewEntry(a, e) <==> ValidNewEntry(b, e))
  {
    hide RebuildFrom, ValidNewEntry;
    if InLog(n, at) && TermAt(n, at) != e.term {
      var cut, cut1 := n.(log := n.log[..at - n.baseIndex], pendingConfig := 0), n1.(log := n.log[..at - n.baseIndex], pendingConfig := 0);
      SameRebuilt(cut, cut1, Max(n.commit + 1, n.baseIndex + 1));
    }
    SameValidity(Cleared(n, at, e), Cleared(n1, at, e), e);
  }

  lemma SameValidity(a: NodeState, b: NodeState, e: Entry)
    requires a.pendingConfig == b.pendingConfig && a.votersOld == b.votersOld && a.votersNew == b.votersNew
    ensures ValidNewEntry(a, e) <==> ValidNewEntry(b, e)
  {
  }

  lemma {:induction false} SameRebuilt(a: NodeState, b: NodeState, index: nat)
    requires Valid(a) && Valid(b) && a.log == b.log && a.baseIndex == b.baseIndex && a.pendingConfig == b.pendingConfig
    ensures RebuildFrom(a, index).pendingConfig == RebuildFrom(b, index).pendingConfig
    decreases LastIndex(a) + 1 - index
  {
    hide EnsurePeers, Or;
    if index <= LastIndex(a) {
      SameEntries(a, b);
      var e := EntryAt(a, index);
      if IsConfig(e) {
        SameRebuilt(EnsurePeers(a.(pendingConfig := index), Or(e.oldVoters, e.newVoters)), EnsurePeers(b.(pendingConfig := index), Or(e.oldVoters, e.newVoters)), index + 1);
      } else {
        SameRebuilt(a, b, index + 1);
      }
    }
  }

  lemma OnAppendResponseKeeps(v: Voters, n: NodeState, m: Message)
    requires Valid(n) && !n.faulted && ConfigOk(v, n) && NodeId(m.from)
    ensures Keeps(v, OnAppendResponse(n, m))
  {
    hide Agrees, CountReadAck, CommitAt, FindCommittable, AppendToContext;
    var n1 := RecordMatch(CountReadAck(n, m), m.from, m.acked);
    var found := FindCommittable(n1, LastIndex(n1));
    if found.Some? { CommitAtConfig(v, n1, found.value); }
  }

  lemma AdoptTermKeeps(v: Voters, n: NodeState, m: Message)
    requires Valid(n) && !n.faulted && ConfigOk(v, n)
    ensures Keeps(v, AdoptTerm(n, m))
  {
    hide Agrees;
  }

  // ----- Every call -----

  /**
   * No compaction and no snapshot, a node that proposes a change is not a quorum by itself, and a
   * stored entry has passed the check on new entries.
   */
  predicate Regular(n: NodeState, call: D.Call)
    requires Valid(n) && D.Proper(call)
  {
    match call
    case StepCall(m) => m.kind != InstallSnapshot && (m.kind == Append && !n.faulted && !AdoptTerm(n, m).faulted ==> Vetted(AdoptTerm(n, m), m))
    case JointCall(ids) =>
      VoterMask(ids).Some? ==> !Alone(n, ZERO_ENTRY.(term := n.term, kind := JointConfig, oldVoters := n.votersOld, newVoters := VoterMask(ids).value))
    case FinalCall => !Alone(n, ZERO_ENTRY.(term := n.term, kind := FinalConfig, oldVoters := n.votersNew))
    case CompactCall(_, _) => false
    case _ => true
  }

  lemma StepKeeps(v: Voters, n: NodeState, m: Message)
    requires Valid(n) && Keeps(v, n) && NodeId(m.from) && m.kind != InstallSnapshot
    requires m.kind == Append && !n.faulted && !AdoptTerm(n, m).faulted ==> Vetted(AdoptTerm(n, m), m)
    ensures Keeps(v, Step(n, m))
  {
    hide Agrees, AdoptTerm, OnPreVote, OnPreVoteResponse, OnVote, OnVoteResponse, OnAppend, OnAppendResponse, AppendToContext, StartElection, IsVoter, Vetted;
    if !n.faulted {
      AdoptTermKeeps(v, n, m);
      var n1 := AdoptTerm(n, m);
      if !n1.faulted {
        match m.kind {
          case PreVote => VotesKeep(v, n1, m);
          case PreVoteResponse => VotesKeep(v, n1, m);
          case RequestVote => VotesKeep(v, n1, m);
          case RequestVoteResponse => VotesKeep(v, n1, m);
          case Append => OnAppendKeeps(v, n1, m);
          case AppendResponse => OnAppendResponseKeeps(v, n1, m);
          case InstallSnapshotResponse =>
          case TimeoutNow => StartElectionKeeps(v, n1);
        }
      }
    }
  }

  lemma ProposalsKeep(v: Voters, n: NodeState, e: Entry)
    requires Valid(n) && !n.faulted && ConfigOk(v, n) && !IsConfig(e) && Acceptable(Voters(n.votersOld, n.votersNew), n.pendingConfig, e)
    ensures Keeps(v, ProposeEntry(n, e))
  {
    hide Agrees, AppendLocal, BroadcastFrom;
    AppendLocalConfig(v, n, e);
  }

  lemma JointKeeps(v: Voters, n: NodeState, ids: seq<Id>)
    requires Valid(n) && Keeps(v, n) && v.old' != 0 && (forall id :: id in ids ==> NodeId(id)) && Regular(n, D.JointCall(ids))
    ensures Keeps(v, ProposeJoint(n, ids))
  {
    hide Agrees, AppendLocal, BroadcastFrom, EnsurePeers, VoterMask, Alone;
    if VoterMask(ids).Some? && CanPropose(n) && n.votersNew == 0 && n.pendingConfig == 0 && !ProposeJoint(n, ids).faulted {
      ProposeJointExactly(v, n, ids);
    }
  }

  lemma FinalKeeps(v: Voters, n: NodeState)
    requires Valid(n) && Keeps(v, n) && Regular(n, D.FinalCall)
    ensures Keeps(v, ProposeFinal(n))
  {
    hide Agrees, AppendLocal, BroadcastFrom, Alone;
    if CanPropose(n) && n.votersNew != 0 && n.pendingConfig == 0 && !ProposeFinal(n).faulted { ProposeFinalExactly(v, n); }
  }

  lemma CallKeeps(v: Voters, n: NodeState, call: D.Call)
    requires Valid(n) && Keeps(v, n) && v.old' != 0 && D.Proper(call) && Regular(n, call)
    ensures Keeps(v, D.Perform(n, call))
  {
    hide Agrees, Tick, Step, ProposeEntry, ProposeJoint, ProposeFinal, AppendAllFrom, OpenBarrier, AppendToContext, IsVoter, QuorumMask, Alone, Vetted;
    match call {
      case TickCall => TickKeeps(v, n);
      case StepCall(m) => StepKeeps(v, n, m);
      case ProposeCall(command) =>
        if CanPropose(n) { ProposalsKeep(v, n, ZERO_ENTRY.(term := n.term, command := command)); }
      case RequestCall(op, client, request, key, value) =>
        if CanPropose(n) {
          ProposalsKeep(v, n, ZERO_ENTRY.(term := n.term, operation := op, clientId := client, requestId := request, key := key, value := value));
        }
      case JointCall(ids) => JointKeeps(v, n, ids);
      case FinalCall => FinalKeeps(v, n);
      case ReadCall(context) => D.OpenBarrierShape(n, context);
      case TransferCall(target) =>
      case DrainCall =>
      case ApplyCall =>
    }
  }

  // ----- Whole histories -----

  /** The node after each of `calls`, with a plan for the writes of every call. */
  ghost predicate History(states: seq<NodeState>, calls: seq<D.Call>) {
    && |states| == |calls| + 1
    && (forall i :: 0 <= i < |calls| ==> Follows(states[i], calls[i], states[i + 1]))
  }

  ghost predicate Follows(n: NodeState, call: D.Call, n': NodeState) {
    && D.Proper(call) && Valid(n)
    && exists budget: nat, kept: bool :: Performed(n, call, budget, kept, n')
  }

  predicate Performed(n: NodeState, call: D.Call, budget: nat, kept: bool, n': NodeState)
    requires Valid(n) && D.Proper(call)
  {
    var p := n.(disk := n.disk.(budget := budget, kept := kept));
    Regular(p, call) && n' == D.Perform(p, call)
  }

  /**
   * However entries were appended, dropped and committed, a node that is restarted from its log
   * has the voters and the pending change of the node that was running.
   */
  lemma {:induction false} ReplayAgrees(states: seq<NodeState>, calls: seq<D.Call>, i: nat)
    requires History(states, calls) && i < |states| && Valid(states[0]) && states[0].votersOld != 0
    requires ConfigOk(Voters(states[0].votersOld, states[0].votersNew), states[0])
    ensures Valid(states[i]) && Keeps(Voters(states[0].votersOld, states[0].votersNew), states[i])
    decreases i
  {
    hide Keeps, ConfigOk, D.Perform, Regular;
    var v := Voters(states[0].votersOld, states[0].votersNew);
    if i == 0 {
      StartKeeps(v, states[0]);
    } else {
      ReplayAgrees(states, calls, i - 1);
      var n, call := states[i - 1], calls[i - 1];
      assert Follows(n, call, states[i - 1 + 1]);
      var budget: nat, kept: bool :| Performed(n, call, budget, kept, states[i]);
      PlanKeeps(v, n, budget, kept);
      CallKeeps(v, n.(disk := n.disk.(budget := budget, kept := kept)), call);
    }
  }

  lemma StartKeeps(v: Voters, n: NodeState)
    requires ConfigOk(v, n)
    ensures Keeps(v, n)
  {
  }

  lemma PlanKeeps(v: Voters, n: NodeState, budget: nat, kept: bool)
    requires Keeps(v, n)
    ensures Keeps(v, n.(disk := n.disk.(budget := budget, kept := kept)))
  {
  }

  /** A fresh node agrees with its empty log. */
  lemma FreshAgrees(id: Id, peers: seq<Id>, timeout: nat, disk: S.Disk)
    requires NodeId(id) && (forall p :: p in peers ==> NodeId(p)) && Distinct(id, peers)
    ensures var n := NewNode(id, peers, timeout, disk); ConfigOk(Voters(n.votersOld, n.votersNew), n)
  {
    hide MaskFrom;
  }

  /** In a history that starts from voters `v`, a restart restores what the running node holds. */
  lemma RestartSeesSame(states: seq<NodeState>, calls: seq<D.Call>, i: nat)
    requires History(states, calls) && i < |states| && Valid(states[0]) && states[0].votersOld != 0
    requires ConfigOk(Voters(states[0].votersOld, states[0].votersNew), states[0])
    ensures Valid(states[i])
    ensures !states[i].faulted ==>
      var n := states[i];
      var r := RestoreConfiguration(n.(votersOld := states[0].votersOld, votersNew := states[0].votersNew));
      !r.faulted && r.votersOld == n.votersOld && r.votersNew == n.votersNew && r.pendingConfig == n.pendingConfig
  {
    hide History, ConfigOk, RestoreConfiguration;
    ReplayAgrees(states, calls, i);
    var v := Voters(states[0].votersOld, states[0].votersNew);
    if !states[i].faulted { RestoreAgrees(v, states[i]); }
  }

  /** From the start: a new node agrees with its log through any such history, and a restart at
      any point restores what it holds. */
  lemma FreshRestarts(states: seq<NodeState>, calls: seq<D.Call>, i: nat, id: Id, peers: seq<Id>, timeout: nat, disk: S.Disk)
    requires NodeId(id) && (forall p :: p in peers ==> NodeId(p)) && Distinct(id, peers)
    requires History(states, calls) && i < |states| && states[0] == NewNode(id, peers, timeout, disk)
    ensures Valid(states[i])
    ensures !states[i].faulted ==>
      var n := states[i];
      var r := RestoreConfiguration(n.(votersOld := MaskFrom(peers, 0, NodeBit(id)), votersNew := 0));
      !r.faulted && r.votersOld == n.votersOld && r.votersNew == n.votersNew && r.pendingConfig == n.pendingConfig
  {
    hide History, ConfigOk, RestoreConfiguration, MaskFrom, NodeBit;
    FreshAgrees(id, peers, timeout, disk);
    MaskIsNotEmpty(peers, 0, NodeBit(id));
    RestartSeesSame(states, calls, i);
  }
}
