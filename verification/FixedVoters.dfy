/** How the configuration machinery of a node behaves while its voter set stands still. */
module FixedVoters {
  import opened Quorums
  import opened Bits
  import opened RaftTypes
  import opened NodeModel
  import StableStore

  /** An entry that changes no configuration and that recovery accepts. */
  predicate PlainEntry(e: Entry) {
    || (e.kind == Normal && e.oldVoters == 0 && e.newVoters == 0)
    || (e.kind == Noop && e.command == 0 && e.oldVoters == 0 && e.newVoters == 0 && e.operation == Legacy)
  }

  predicate PlainLog(log: seq<Entry>) {
    forall i :: 0 <= i < |log| ==> PlainEntry(log[i])
  }

  predicate PeeredAs(id: Id, peers: seq<Id>, voters: set<Id>) {
    && id in voters && (forall v :: v in voters ==> NodeId(v)) && (forall p :: p in peers ==> NodeId(p))
    && Distinct(id, peers) && (set p | p in peers) == voters - {id}
  }

  predicate Peered(n: NodeState, voters: set<Id>) {
    PeeredAs(n.id, n.peers, voters)
  }

  predicate VoterMaskIs(mask: nat, voters: set<Id>) {
    mask < Pow2(WIDTH) && Members(mask) == voters
  }

  /** The node has never seen a configuration change or a compaction. */
  predicate Fixed(n: NodeState, voters: set<Id>) {
    && Peered(n, voters)
    && n.baseIndex == 0 && 0 < |n.log| && PlainLog(n.log)
    && VoterMaskIs(n.votersOld, voters) && n.votersNew == 0 && n.pendingConfig == 0
  }

  lemma FixedIsValid(n: NodeState, voters: set<Id>)
    requires Fixed(n, voters)
    ensures Valid(n)
  {
  }

  lemma PlainVoters(n: NodeState, index: nat, last: nat, v: Voters)
    requires PlainLog(n.log)
    ensures VotersFrom(n, index, last, v) == v
    decreases last + 1 - index
  {
    if index <= last { PlainVoters(n, index + 1, last, v); }
  }

  lemma FixedQuorum(n: NodeState, voters: set<Id>, mask: nat)
    requires Fixed(n, voters)
    ensures QuorumMask(n, mask) <==> IsQuorum(voters, Members(mask))
  {
    PlainVoters(n, Max(n.commit + 1, n.baseIndex + 1), LastIndex(n), Voters(n.votersOld, n.votersNew));
    MajorityMaskIsQuorum(n.votersOld, mask);
  }

  lemma FixedCommit(n: NodeState, voters: set<Id>, index: nat, mask: nat)
    requires Fixed(n, voters)
    ensures CanCommitIndex(n, index, mask) <==> IsQuorum(voters, Members(mask))
  {
    PlainVoters(n, n.commit + 1, index, Voters(n.votersOld, n.votersNew));
    MajorityMaskIsQuorum(n.votersOld, mask);
  }

  lemma FixedVoter(n: NodeState, voters: set<Id>, id: Id)
    requires Fixed(n, voters) && NodeId(id)
    ensures IsVoter(n, id) <==> id in voters
  {
    PlainVoters(n, Max(n.commit + 1, n.baseIndex + 1), LastIndex(n), Voters(n.votersOld, n.votersNew));
    OrMembers(n.votersOld, 0);
    BitTest(n.votersOld, id);
  }

  lemma FixedApply(n: NodeState, first: nat, last: nat)
    requires Valid(n) && PlainLog(n.log) && n.pendingConfig == 0 && 0 < first
    ensures ApplyFrom(n, first, last) == n
    decreases last + 1 - first
  {
    if first <= last {
      assert PlainEntry(EntryAt(n, first));
      FixedApply(n, first + 1, last);
    }
  }

  lemma FixedRebuild(n: NodeState, index: nat)
    requires Valid(n) && PlainLog(n.log)
    ensures RebuildFrom(n, index) == n
    decreases LastIndex(n) + 1 - index
  {
    if index <= LastIndex(n) { FixedRebuild(n, index + 1); }
  }

  lemma FixedReplay(n: NodeState, last: nat)
    requires Valid(n) && PlainLog(n.log)
    ensures ReplayTo(n, last) == Replay(true, Voters(n.votersOld, n.votersNew), 0)
    ensures RestoredPeers(n, last) == n
    decreases last
  {
    if last > n.baseIndex {
      FixedReplay(n, last - 1);
      assert PlainEntry(EntryAt(n, last));
      EnsureNobody(n, 1);
    }
  }

  lemma EnsureNobody(n: NodeState, id: nat)
    requires Valid(n) && 1 <= id <= WIDTH + 1
    ensures EnsureFrom(n, 0, id) == n
    decreases WIDTH + 1 - id
  {
    if id <= WIDTH { EnsureNobody(n, id + 1); }
  }

  lemma MaskOfPeers(peers: seq<Id>, k: nat, mask: nat)
    requires k <= |peers| && (forall p :: p in peers ==> NodeId(p)) && mask < Pow2(WIDTH)
    ensures MaskFrom(peers, k, mask) < Pow2(WIDTH)
    ensures Members(MaskFrom(peers, k, mask)) == Members(mask) + set p | p in peers[k..]
    decreases |peers| - k
  {
    if k < |peers| {
      OrBound(mask, NodeBit(peers[k]), WIDTH);
      OrMembers(mask, NodeBit(peers[k]));
      BitMembers(peers[k]);
      MaskOfPeers(peers, k + 1, Or(mask, NodeBit(peers[k])));
      assert peers[k..] == [peers[k]] + peers[k + 1..];
    }
  }

  /** A fresh node's voter mask stands for itself and its peers. */
  lemma NewNodeFixed(id: Id, peers: seq<Id>, timeout: nat, disk: StableStore.Disk, voters: set<Id>)
    requires NodeId(id) && (forall v :: v in voters ==> NodeId(v)) && (forall p :: p in peers ==> NodeId(p)) && Distinct(id, peers)
    requires id in voters && (set p | p in peers) == voters - {id}
    ensures Fixed(NewNode(id, peers, timeout, disk), voters)
  {
    var n := NewNode(id, peers, timeout, disk);
    BitMembers(id);
    MaskOfPeers(peers, 0, NodeBit(id));
    assert peers[0..] == peers;
    assert Members(n.votersOld) == {id} + (voters - {id}) == voters;
  }
}
