/** In every run, base, applied, commit and last index of a running node stand in that order. */
module RaftIndexes {
  import opened Quorums
  import opened Bits
  import opened RaftTypes
  import opened NodeModel
  import opened RaftCluster
  import Safety = RaftSafety
  import S = StableStore
  import P = RaftProtocol
  import R = RaftSteps
  import T = RaftRefinement

  // ----- Who moves the applied index -----

  /** The applied index is where it was. */
  predicate Unapplied(n: NodeState, r: NodeState) {
    r.applied == n.applied
  }

  lemma AppendLocalUnapplied(n: NodeState, e: Entry)
    requires Valid(n)
    ensures Unapplied(n, AppendLocal(n, e))
  {
    hide QuorumMask, ApplyFrom, S.Append, S.SaveHardState, NodeBit;
  }

  lemma BecomeLeaderUnapplied(n: NodeState)
    requires Valid(n)
    ensures Unapplied(n, BecomeLeader(n))
  {
    hide AppendLocal, BroadcastFrom, ResetPeersFrom;
    AppendLocalUnapplied(n.(state := Leader, leader := n.id, elapsed := 0), ZERO_ENTRY.(term := n.term, kind := Noop));
  }

  lemma StartElectionUnapplied(n: NodeState)
    requires Valid(n)
    ensures Unapplied(n, StartElection(n))
  {
    hide QuorumMask, BecomeLeader, AskFrom, NodeBit, S.SaveHardState;
    var n1 := Persist(n, HardState(n.term + 1, n.id, n.commit));
    if !n1.faulted {
      var n2 := n1.(state := Candidate, term := n.term + 1, votedFor := n.id, elapsed := 0, voteMask := NodeBit(n.id), preVoteMask := 0);
      BecomeLeaderUnapplied(AskAll(n2, RequestVote, n2.term));
    }
  }

  lemma TickUnapplied(n: NodeState)
    requires Valid(n)
    ensures Unapplied(n, NodeModel.Tick(n))
  {
    hide QuorumMask, StartElection, AskFrom, NodeBit, BroadcastFrom;
    var n1 := n.(elapsed := 0, preVoteTerm := n.term + 1, leader := 0, preVoteMask := NodeBit(n.id));
    StartElectionUnapplied(AskAll(n1, PreVote, n1.preVoteTerm));
  }

  lemma VotesUnapplied(n: NodeState, m: Message)
    requires Valid(n) && NodeId(m.from)
    ensures Unapplied(n, OnPreVote(n, m)) && Unapplied(n, OnPreVoteResponse(n, m))
    ensures Unapplied(n, OnVote(n, m)) && Unapplied(n, OnVoteResponse(n, m))
  {
    hide QuorumMask, IsVoter, StartElection, BecomeLeader, NodeBit, Or, S.SaveHardState, AsUpToDate;
    StartElectionUnapplied(n.(preVoteMask := Or(n.preVoteMask, NodeBit(m.from))));
    BecomeLeaderUnapplied(n.(voteMask := Or(n.voteMask, NodeBit(m.from))));
  }

  lemma StoreEntryUnapplied(n: NodeState, at: nat, e: Entry)
    requires Valid(n) && n.baseIndex < at
    ensures Unapplied(n, StoreEntry(n, at, e))
  {
    hide Cleared, EnsurePeers, Or, S.Append;
  }

  lemma FollowCommitUnapplied(n: NodeState, m: Message)
    requires Valid(n)
    ensures Unapplied(n, FollowCommit(n, m))
  {
    hide ApplyCommittedConfigurations, S.SaveHardState;
  }

  lemma OnAppendUnapplied(n: NodeState, m: Message)
    requires Valid(n) && NodeId(m.from)
    ensures Unapplied(n, OnAppend(n, m))
  {
    hide StoreEntry, FollowCommit, ValidNewEntry;
    if !RejectsAppend(n, m) {
      var n1 := n.(state := Follower, leader := m.from, elapsed := 0);
      if m.hasEntry { StoreEntryUnapplied(n1, m.logIndex + 1, m.entry); }
      FollowCommitUnapplied(if m.hasEntry then StoreEntry(n1, m.logIndex + 1, m.entry) else n1, m);
    }
  }

  lemma CommitAtUnapplied(n: NodeState, index: nat)
    requires Valid(n)
    ensures Unapplied(n, CommitAt(n, index))
  {
    hide ApplyCommittedConfigurations, BroadcastAppend, S.SaveHardState;
  }

  lemma OnAppendResponseUnapplied(n: NodeState, m: Message)
    requires Valid(n) && NodeId(m.from)
    ensures Unapplied(n, OnAppendResponse(n, m))
  {
    hide CountReadAck, CommitAt, FindCommittable, AppendToContext;
    var n1 := CountReadAck(n, m);
    var n2 := RecordMatch(n1, m.from, m.acked);
    var found := FindCommittable(n2, LastIndex(n2));
    if found.Some? { CommitAtUnapplied(n2, found.value); }
  }

  lemma StepUnapplied(n: NodeState, m: Message)
    requires Valid(n) && NodeId(m.from) && m.kind != InstallSnapshot
    ensures Unapplied(n, Step(n, m))
  {
    hide OnPreVote, OnPreVoteResponse, OnVote, OnVoteResponse, OnAppend, OnAppendResponse, AppendToContext, IsVoter, StartElection, S.SaveHardState;
    var n1 := AdoptTerm(n, m);
    VotesUnapplied(n1, m);
    OnAppendUnapplied(n1, m);
    OnAppendResponseUnapplied(n1, m);
    StartElectionUnapplied(n1);
  }

  /** Only applying and restarting move the applied index, and a stopped node stays stopped
      until it is restarted. */
  lemma CallUnapplied(n: NodeState, call: Call)
    requires Valid(n) && !call.Restart?
    requires call.Deliver? ==> NodeId(call.m.from) && call.m.kind != InstallSnapshot
    requires call.Transfer? ==> NodeId(call.target)
    ensures var r := Called(n, call); Unapplied(n, r) || (call.Apply? && r == ApplyEntries(n))
    ensures n.faulted && n.state != Leader ==> Called(n, call).faulted
  {
    hide NodeModel.Tick, Step, AppendLocal, BroadcastFrom, AppendAllFrom, IsVoter, AppendToContext, QuorumMask;
    StoppedStays(n, call);
    match call {
      case Tick => TickUnapplied(n);
      case Deliver(m) => StepUnapplied(n, m);
      case Propose(command) => AppendLocalUnapplied(n, ZERO_ENTRY.(term := n.term, command := command));
      case Request(op, client, request, key, value) =>
        AppendLocalUnapplied(n, ZERO_ENTRY.(term := n.term, operation := op, clientId := client, requestId := request, key := key, value := value));
      case _ =>
    }
  }

  lemma StoppedStays(n: NodeState, call: Call)
    requires Valid(n) && (call.Deliver? ==> NodeId(call.m.from))
    ensures n.faulted && call.Tick? ==> NodeModel.Tick(n) == n
    ensures n.faulted && call.Deliver? ==> Step(n, call.m) == n
  {
    hide StartPreVote, BroadcastAppend, AdoptTerm, Dispatch;
  }

  // ----- Over a run -----

  /** What a run shows of one node and of the message it is handed. */
  lemma Facts(states: seq<Cluster>, events: seq<Event>, i: nat, v: Id)
    requires Run(states, events) && i < |states| && v in states[i].nodes
    ensures if states[i].nodes[v].faulted then states[i].nodes[v].state != Leader else Valid(states[i].nodes[v])
    ensures forall m :: m in states[i].network ==> m.kind != InstallSnapshot
  {
    hide R.Evolves, Rel, Run;
    var ps := Safety.ProtocolBehind(states, events);
    assert Rel(ps[i], states[i]);
    NodeFacts(ps[i], states[i], v);
    forall m | m in states[i].network ensures m.kind != InstallSnapshot { NetworkFacts(ps[i], states[i], m); }
  }

  lemma NodeFacts(p: P.Proto, c: Cluster, v: Id)
    requires Rel(p, c) && v in c.nodes
    ensures if c.nodes[v].faulted then c.nodes[v].state != Leader else Valid(c.nodes[v])
  {
    hide P.Inv, T.Known;
    assert T.Tracks(p, c.nodes[v]);
    if !c.nodes[v].faulted { T.Tracked(p, c.nodes[v]); }
  }

  lemma NetworkFacts(p: P.Proto, c: Cluster, m: Message)
    requires Rel(p, c) && m in c.network
    ensures m.kind != InstallSnapshot
  {
    hide P.Inv, T.Tracks;
  }

  predicate Lags(n: NodeState) {
    !n.faulted ==> n.applied <= n.commit
  }

  lemma {:induction false} AppliedLags(states: seq<Cluster>, events: seq<Event>, i: nat, v: Id)
    requires |states| == |events| + 1 && Run(states, events) && i < |states| && v in states[i].nodes
    ensures Lags(states[i].nodes[v])
    decreases i
  {
    hide Run, Called, Enabled;
    if i == 0 {
      First(states, events, v);
    } else {
      var k := i - 1;
      Latest(states, events, k);
      assert v in states[k].nodes;
      AppliedLags(states, events, k, v);
      if v == events[k].id && !states[i].nodes[v].faulted {
        CommitGrows(states, events, k, v);
        Facts(states, events, k, v);
        CallLags(states[k], events[k]);
      }
    }
  }

  lemma First(states: seq<Cluster>, events: seq<Event>, v: Id)
    requires Run(states, events) && v in states[0].nodes
    ensures states[0].nodes[v].applied == 0
  {
  }

  lemma Latest(states: seq<Cluster>, events: seq<Event>, k: nat)
    requires Run(states, events) && k < |events|
    ensures k + 1 < |states| && Enabled(states[k], events[k]) && states[k + 1] == Next(states[k], events[k])
    ensures states[k + 1].nodes.Keys == states[k].nodes.Keys
  {
    hide Init, Called;
  }

  /** While a node runs, its commit index never goes back. */
  lemma CommitGrows(states: seq<Cluster>, events: seq<Event>, k: nat, v: Id)
    requires |states| == |events| + 1 && Run(states, events) && k < |events| && v in states[k].nodes && v in states[k + 1].nodes
    ensures !states[k].nodes[v].faulted && !states[k + 1].nodes[v].faulted ==> states[k].nodes[v].commit <= states[k + 1].nodes[v].commit
  {
    hide Run;
    if !states[k].nodes[v].faulted && !states[k + 1].nodes[v].faulted {
      Safety.MemoryMirrorsDisk(states, events, k, v);
      Safety.MemoryMirrorsDisk(states, events, k + 1, v);
      Safety.CommittedForever(states, events, k, k + 1, v);
    }
  }

  lemma CallLags(c: Cluster, e: Event)
    requires Enabled(c, e) && Lags(c.nodes[e.id]) && (c.nodes[e.id].faulted ==> c.nodes[e.id].state != Leader)
    requires forall m :: m in c.network ==> m.kind != InstallSnapshot
    requires var n, r := c.nodes[e.id], Next(c, e).nodes[e.id]; !n.faulted && !r.faulted ==> n.commit <= r.commit
    ensures Lags(Next(c, e).nodes[e.id])
  {
    hide Called;
    var n := WithPlan(c.nodes[e.id], e);
    if e.call.Restart? { RestartLags(n); } else { CallUnapplied(n, e.call); }
  }

  lemma RestartLags(n: NodeState)
    requires Valid(n) && Distinct(n.id, n.peers)
    ensures Called(n, Restart).applied == 0
  {
    hide MaskFrom, ReplayTo;
  }

  /** Base, applied, commit and last index of a running node are in order throughout a run, so
      that no index it looks up lies outside its log. */
  lemma IndexSanity(states: seq<Cluster>, events: seq<Event>, i: nat, v: Id)
    requires Run(states, events) && i < |states| && v in states[i].nodes && !states[i].nodes[v].faulted
    ensures Sane(states[i].nodes[v])
  {
    hide Init, Enabled, Next;
    Facts(states, events, i, v);
    AppliedLags(states, events, i, v);
    Safety.Uncompacted(states, events, i, v);
    Safety.MemoryMirrorsDisk(states, events, i, v);
    Safety.CommittedForever(states, events, i, i, v);
  }
}
