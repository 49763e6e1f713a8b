/**
 * A leader that is a quorum by itself commits a configuration change before it marks the change
 * as pending, and the mark stays.
 */
module LoneLeader {
  import opened Quorums
  import opened Bits
  import opened RaftTypes
  import opened NodeModel
  import opened Configuration
  import opened FixedVoters
  import D = NodeDurability
  import C = ConfigurationRuns
  import S = StableStore

  // ----- A mark at or below the commit index -----

  /** A change is marked as pending although it has been committed. */
  predicate Stuck(n: NodeState) {
    Valid(n) && 0 < n.pendingConfig <= n.commit <= LastIndex(n)
  }

  predicate SameMark(n: NodeState, r: NodeState) {
    Stuck(r) && r.pendingConfig == n.pendingConfig
  }

  lemma {:induction false} ApplyKeepsMark(n: NodeState, index: nat, last: nat)
    requires Valid(n) && n.pendingConfig < index
    ensures ApplyFrom(n, index, last).pendingConfig == n.pendingConfig
    decreases last + 1 - index
  {
    hide ApplyConfiguration;
    if index <= last {
      ApplyOne(n, index);
      ApplyKeepsMark(ApplyConfiguration(n, index), index + 1, last);
    }
  }

  lemma AppendLocalStuck(n: NodeState, e: Entry)
    requires Stuck(n) && !n.faulted
    ensures SameMark(n, AppendLocal(n, e))
  {
    hide QuorumMask, ApplyCommittedConfigurations, S.Append, Persist, NodeBit;
    var n1 := Settle(n, S.Append(n.disk, LastIndex(n) + 1, e));
    if !n1.faulted {
      var n2 := n1.(log := n1.log + [e]);
      var n3 := Persist(n2.(commit := LastIndex(n2)), HardState(n2.term, n2.votedFor, LastIndex(n2)));
      PersistMark(n2.(commit := LastIndex(n2)), HardState(n2.term, n2.votedFor, LastIndex(n2)));
      if !n3.faulted { CommitMark(n3, n.commit + 1); }
    }
  }

  lemma PersistMark(n: NodeState, h: HardState)
    requires Valid(n)
    ensures var r := Persist(n, h); Valid(r) && r.pendingConfig == n.pendingConfig && r.log == n.log && r.baseIndex == n.baseIndex && r.commit == n.commit
  {
    hide S.SaveHardState;
  }

  lemma CommitMark(n: NodeState, first: nat)
    requires Valid(n) && n.pendingConfig < first
    ensures ApplyCommittedConfigurations(n, first, n.commit).pendingConfig == n.pendingConfig
  {
    hide ApplyFrom;
    ApplyKeepsMark(n, Max(first, n.baseIndex + 1), n.commit);
  }

  lemma BecomeLeaderStuck(n: NodeState)
    requires Stuck(n) && !n.faulted
    ensures SameMark(n, BecomeLeader(n))
  {
    hide AppendLocal, BroadcastFrom, ResetPeersFrom;
    AppendLocalStuck(n.(state := Leader, leader := n.id, elapsed := 0), ZERO_ENTRY.(term := n.term, kind := Noop));
  }

  lemma StartElectionStuck(n: NodeState)
    requires Stuck(n) && !n.faulted
    ensures SameMark(n, StartElection(n))
  {
    hide QuorumMask, BecomeLeader, AskFrom, NodeBit, S.SaveHardState;
    var n1 := Persist(n, HardState(n.term + 1, n.id, n.commit));
    if !n1.faulted {
      var n2 := n1.(state := Candidate, term := n.term + 1, votedFor := n.id, elapsed := 0, voteMask := NodeBit(n.id), preVoteMask := 0);
      BecomeLeaderStuck(AskAll(n2, RequestVote, n2.term));
    }
  }

  lemma TickStuck(n: NodeState)
    requires Stuck(n)
    ensures SameMark(n, Tick(n))
  {
    hide QuorumMask, StartElection, AskFrom, NodeBit, BroadcastFrom;
    var n1 := n.(elapsed := 0, preVoteTerm := n.term + 1, leader := 0, preVoteMask := NodeBit(n.id));
    if !n.faulted { StartElectionStuck(AskAll(n1, PreVote, n1.preVoteTerm)); }
  }

  lemma ProposeStuck(n: NodeState, e: Entry)
    requires Stuck(n) && !n.faulted
    ensures SameMark(n, ProposeEntry(n, e))
  {
    hide AppendLocal, BroadcastFrom;
    AppendLocalStuck(n, e);
  }

  lemma CompactStuck(n: NodeState, index: nat, state: seq<Byte>)
    requires Stuck(n)
    ensures SameMark(n, Compact(n, index, state))
  {
    hide S.SaveSnapshot, S.CompactLog;
  }

  /** None of a node's own calls takes the mark back, and no further change is accepted. */
  lemma CallStuck(n: NodeState, call: D.Call)
    requires Stuck(n) && D.Proper(call) && !call.StepCall?
    ensures SameMark(n, D.Perform(n, call)) && (call.JointCall? || call.FinalCall? ==> D.Perform(n, call) == n)
  {
    hide Tick, ProposeEntry, AppendAllFrom, AppendToContext, IsVoter, QuorumMask, Compact;
    match call {
      case TickCall => TickStuck(n);
      case ProposeCall(command) =>
        if CanPropose(n) { ProposeStuck(n, ZERO_ENTRY.(term := n.term, command := command)); }
      case RequestCall(op, client, request, key, value) =>
        if CanPropose(n) {
          ProposeStuck(n, ZERO_ENTRY.(term := n.term, operation := op, clientId := client, requestId := request, key := key, value := value));
        }
      case CompactCall(index, state) => CompactStuck(n, index, state);
      case _ =>
    }
  }

  /** A node left to itself: any calls but deliveries, with any writes failing. */
  ghost predicate OwnCalls(states: seq<NodeState>, calls: seq<D.Call>) {
    && |states| == |calls| + 1
    && (forall i :: 0 <= i < |calls| ==> Own(states[i], calls[i], states[i + 1]))
  }

  ghost predicate Own(n: NodeState, call: D.Call, n': NodeState) {
    && Valid(n) && D.Proper(call) && !call.StepCall?
    && exists budget: nat, kept: bool :: n' == D.Perform(D.Planned(n, budget, kept), call)
  }

  /** The mark is there for as long as the node is left to itself. */
  lemma {:induction false} StuckForever(states: seq<NodeState>, calls: seq<D.Call>, i: nat)
    requires OwnCalls(states, calls) && i < |states| && Stuck(states[0])
    ensures Stuck(states[i]) && states[i].pendingConfig == states[0].pendingConfig
    ensures i < |calls| && (calls[i].JointCall? || calls[i].FinalCall?) ==> states[i + 1] == states[i].(disk := states[i + 1].disk)
    decreases i
  {
    hide D.Perform;
    if i > 0 {
      StuckForever(states, calls, i - 1);
      assert Own(states[i - 1], calls[i - 1], states[i]);
      OwnStuck(states[i - 1], calls[i - 1], states[i]);
    }
    if i < |calls| {
      assert Own(states[i], calls[i], states[i + 1]);
      OwnStuck(states[i], calls[i], states[i + 1]);
    }
  }

  lemma OwnStuck(n: NodeState, call: D.Call, n': NodeState)
    requires Stuck(n) && Own(n, call, n')
    ensures SameMark(n, n') && (call.JointCall? || call.FinalCall? ==> n' == n.(disk := n'.disk))
  {
    hide D.Perform;
    var budget: nat, kept: bool :| n' == D.Perform(D.Planned(n, budget, kept), call);
    CallStuck(D.Planned(n, budget, kept), call);
  }

  // ----- The only node of a cluster -----

  predicate Lone(n: NodeState) {
    && Valid(n) && !n.faulted && D.Mirror(n) && n.peers == [] && PlainLog(n.log)
    && n.votersOld == NodeBit(n.id) && n.votersNew == 0 && n.pendingConfig == 0
  }

  lemma SelfMajority(bit: nat)
    requires 0 < bit
    ensures MajorityMask(bit, bit)
  {
    AndSelf(bit);
    PopcountPositive(bit);
  }

  lemma LoneQuorum(n: NodeState)
    requires Valid(n) && PlainLog(n.log) && n.votersOld == NodeBit(n.id) && n.votersNew == 0
    ensures QuorumMask(n, NodeBit(n.id))
  {
    hide MajorityMask, NodeBit;
    SelfMajority(NodeBit(n.id));
    PlainVoters(n, Max(n.commit + 1, n.baseIndex + 1), LastIndex(n), Voters(n.votersOld, n.votersNew));
  }

  /** The two writes of an append succeed one after the other. */
  lemma LoneWrites(n: NodeState, e: Entry)
    requires Lone(n) && n.disk.budget >= 2
    ensures var a := S.Append(n.disk, LastIndex(n) + 1, e);
      a.ok && var b := S.SaveHardState(a.disk, HardState(n.term, n.votedFor, LastIndex(n) + 1)); b.ok && b.disk.budget == n.disk.budget - 2
  {
    D.SameSize(n.log, n.disk.wal.data);
    hide D.SameLog, NodeBit, PlainLog;
  }

  lemma LoneAppends(n: NodeState, e: Entry)
    requires Lone(n) && PlainEntry(e) && n.disk.budget >= 2
    ensures var r := AppendLocal(n, e);
      && !r.faulted && r.disk.budget == n.disk.budget - 2 && r.commit == LastIndex(r)
      && r == n.(disk := r.disk, log := n.log + [e], commit := r.commit)
  {
    hide D.Mirror, QuorumMask, NodeBit, ApplyFrom, S.Append, S.SaveHardState;
    LoneWrites(n, e);
    var n2 := n.(disk := S.Append(n.disk, LastIndex(n) + 1, e).disk, log := n.log + [e]);
    LoneQuorum(n2);
    var n3 := Persist(n2.(commit := LastIndex(n2)), HardState(n2.term, n2.votedFor, LastIndex(n2)));
    FixedApply(n3, Max(n.commit + 1, n3.baseIndex + 1), n3.commit);
  }

  /** It elects itself at its first timeout. */
  lemma LoneElects(n: NodeState)
    requires Lone(n) && n.state == Follower && n.elapsed + 1 >= n.timeout && n.disk.budget >= 3
    ensures var r := Tick(n);
      Lone(r) && r.state == Leader && r.disk.budget == n.disk.budget - 3 && r.commit == LastIndex(r) && r.id == n.id && r.timeout == n.timeout
  {
    hide D.Mirrored, QuorumMask, NodeBit, AppendLocal, Persist;
    D.MirrorIsSane(n);
    var n1 := n.(elapsed := 0, preVoteTerm := n.term + 1, leader := 0, preVoteMask := NodeBit(n.id));
    LoneQuorum(n1);
    var h := HardState(n.term + 1, n.id, n.commit);
    ElectionWrites(n1, h);
    D.PersistKept(n1, h);
    var n2 := Persist(n1, h).(state := Candidate, term := n.term + 1, votedFor := n.id, elapsed := 0, voteMask := NodeBit(n.id), preVoteMask := 0);
    LoneQuorum(n2);
    var n3 := n2.(state := Leader, leader := n.id, elapsed := 0);
    LoneAppends(n3, ZERO_ENTRY.(term := n3.term, kind := Noop));
    D.AppendLocalKept(n3, ZERO_ENTRY.(term := n3.term, kind := Noop));
  }

  lemma ElectionWrites(n: NodeState, h: HardState)
    requires !n.faulted && n.disk.budget >= 1 && D.Mirror(n) && h.term == n.term + 1 && n.commit <= h.commit
    ensures var r := Persist(n, h); r == n.(disk := r.disk) && r.disk.budget == n.disk.budget - 1
  {
    hide D.SameLog;
  }

  lemma MaskOfOne(id: Id)
    requires NodeId(id)
    ensures VoterMask([id]) == Some(NodeBit(id)) && MaskFrom([], 0, NodeBit(id)) == NodeBit(id)
  {
    hide NodeBit;
    assert And(0, NodeBit(id)) == 0 && Or(0, NodeBit(id)) == NodeBit(id);
    assert VoterMaskFrom([id], 1, NodeBit(id)) == Some(NodeBit(id));
  }

  /** The change to the configuration that it has already. */
  function Renewal(n: NodeState): Entry
    requires NodeId(n.id)
  {
    ZERO_ENTRY.(term := n.term, kind := JointConfig, oldVoters := NodeBit(n.id), newVoters := NodeBit(n.id))
  }

  lemma RenewsAlone(n: NodeState)
    requires Lone(n) && n.commit == LastIndex(n)
    ensures Alone(n, Renewal(n))
  {
    hide MajorityMask, NodeBit, D.Mirror;
    SelfMajority(NodeBit(n.id));
    var n', k, bit := n.(log := n.log + [Renewal(n)]), LastIndex(n) + 1, NodeBit(n.id);
    assert EntryAt(n', k) == Renewal(n);
    assert VotersFrom(n', k + 1, k, Voters(bit, bit)) == Voters(bit, bit);
    assert VotersFrom(n', k, k, Voters(bit, 0)) == Voters(bit, bit);
  }

  lemma RenewalRuns(n: NodeState)
    requires Lone(n) && n.state == Leader && n.commit == LastIndex(n) && n.disk.budget >= 2
    ensures var r := ProposeJoint(n, [n.id]); !r.faulted && Stuck(r)
  {
    hide D.SameLog, QuorumMask, NodeBit, ApplyFrom, EnsureFrom, VoterMask, BroadcastFrom, Alone;
    D.SameSize(n.log, n.disk.wal.data);
    MaskOfOne(n.id);
    RenewsAlone(n);
    AloneAppends(n, EnsurePeers(n, NodeBit(n.id)), Renewal(n));
  }

  lemma AloneAppends(n: NodeState, n0: NodeState, e: Entry)
    requires Valid(n0) && !n.faulted && D.Mirror(n) && n0 == n.(peers := n0.peers, next := n0.next, matched := n0.matched)
    requires Alone(n, e) && n.disk.budget >= 2
    ensures var r := AppendLocal(n0, e); !r.faulted && r.commit == LastIndex(r) == LastIndex(n) + 1
  {
    hide D.SameLog, QuorumMask, NodeBit, ApplyFrom;
    D.SameSize(n.log, n.disk.wal.data);
    var m1 := Settle(n0, S.Append(n0.disk, LastIndex(n0) + 1, e));
    assert !m1.faulted;
    var n2 := m1.(log := m1.log + [e]);
    SameQuorum(n.(log := n.log + [e]), n2, NodeBit(n.id));
    assert !Persist(n2.(commit := LastIndex(n2)), HardState(n2.term, n2.votedFor, LastIndex(n2))).faulted;
  }

  /**
   * The only node of a cluster times out, leads, and proposes the configuration it has.  The
   * change commits at once and yet stays marked as pending, so that a restart, which finds nothing
   * pending, disagrees with the running node; left to itself the node refuses every later change.
   */
  lemma LoneLeaderStaysPending(id: Id, timeout: nat)
    requires NodeId(id) && timeout <= 1
    ensures var n := Tick(NewNode(id, [], timeout, S.FRESH.(budget := 9)));
      && n.state == Leader && ConfigOk(Voters(NodeBit(id), 0), n)
      && var r := ProposeJoint(n, [id]);
      && !r.faulted && Stuck(r) && !ConfigOk(Voters(NodeBit(id), 0), r)
  {
    hide Tick, ConfigOk, NodeBit, MaskFrom, VoterMask, Alone, D.Mirror, ProposeJoint;
    var n0, v := NewNode(id, [], timeout, S.FRESH.(budget := 9)), Voters(NodeBit(id), 0);
    MaskOfOne(id);
    LoneStart(id, timeout);
    LoneElects(n0);
    C.FreshAgrees(id, [], timeout, S.FRESH.(budget := 9));
    C.TickKeeps(v, n0);
    var n := Tick(n0);
    RenewsAlone(n);
    RenewalRuns(n);
    ProposeJointExactly(v, n, [id]);
  }

  lemma LoneStart(id: Id, timeout: nat)
    requires NodeId(id)
    ensures Lone(NewNode(id, [], timeout, S.FRESH.(budget := 9)))
  {
    hide NodeBit;
  }
}
