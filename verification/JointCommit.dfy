/**
 * Which majorities a decision needs while the membership changes.
 *
 * A joint configuration counts from the moment it is in the log: what is decided above it needs a
 * majority of the old voters and a majority of the new ones.
 */
module JointCommit {
  import opened Quorums
  import opened Bits
  import opened RaftTypes
  import opened NodeModel
  import S = StableStore

  // ----- The configuration in force -----

  predicate IsJoint(n: NodeState, index: nat) {
    EntryAt(n, index).kind == JointConfig
  }

  /** `k` is the last joint entry above `after` and up to `last`. */
  predicate LastJoint(n: NodeState, after: nat, last: nat, k: nat) {
    after < k <= last && IsJoint(n, k) && forall j: nat :: k < j <= last ==> !IsJoint(n, j)
  }

  predicate NoJoint(n: NodeState, after: nat, last: nat) {
    forall j: nat :: after < j <= last ==> !IsJoint(n, j)
  }

  /** A majority of each set, the second only if there is one. */
  ghost predicate Majorities(old': nat, new': nat, acks: set<Id>) {
    IsQuorum(Members(old'), acks) && (new' == 0 || IsQuorum(Members(new'), acks))
  }

  /** `acks` decides what stands at `index`: by the sets that the last joint entry above `after`
      names and, without one, by the voters in force. */
  ghost predicate Backed(n: NodeState, after: nat, index: nat, acks: set<Id>) {
    && (forall k: nat :: LastJoint(n, after, index, k) ==> Majorities(EntryAt(n, k).oldVoters, EntryAt(n, k).newVoters, acks))
    && (NoJoint(n, after, index) ==> Majorities(n.votersOld, n.votersNew, acks))
  }

  /** Voter sets are 64-bit words. */
  predicate Wide(n: NodeState) {
    && n.votersOld < Pow2(WIDTH) && n.votersNew < Pow2(WIDTH)
    && forall i :: 0 <= i < |n.log| ==> n.log[i].oldVoters < Pow2(WIDTH) && n.log[i].newVoters < Pow2(WIDTH)
  }

  lemma {:induction false} VotersStay(n: NodeState, after: nat, last: nat, v: Voters)
    requires NoJoint(n, after, last)
    ensures VotersFrom(n, after + 1, last, v) == v
    decreases last - after
  {
    if after < last {
      assert !IsJoint(n, after + 1);
      VotersStay(n, after + 1, last, v);
    }
  }

  lemma {:induction false} VotersAre(n: NodeState, after: nat, last: nat, v: Voters, k: nat)
    requires LastJoint(n, after, last, k)
    ensures VotersFrom(n, after + 1, last, v) == Voters(EntryAt(n, k).oldVoters, EntryAt(n, k).newVoters)
    decreases last - after
  {
    var e := EntryAt(n, after + 1);
    var w := if e.kind == JointConfig then Voters(e.oldVoters, e.newVoters) else v;
    if k == after + 1 {
      assert IsJoint(n, k);
      VotersStay(n, k, last, w);
    } else {
      VotersAre(n, after + 1, last, w, k);
    }
  }

  lemma {:induction false} SomeJoint(n: NodeState, after: nat, last: nat) returns (k: nat)
    requires !NoJoint(n, after, last)
    ensures LastJoint(n, after, last, k)
    decreases last
  {
    if IsJoint(n, last) { k := last; } else { k := SomeJoint(n, after, last - 1); }
  }

  lemma CarriesExactly(v: Voters, mask: nat)
    requires v.old' < Pow2(WIDTH) && v.new' < Pow2(WIDTH)
    ensures Carries(v, mask) <==> Majorities(v.old', v.new', Members(mask))
  {
    hide MajorityMask, IsQuorum, Members, Pow2;
    MajorityMaskIsQuorum(v.old', mask);
    MajorityMaskIsQuorum(v.new', mask);
  }

  lemma EntryIsWide(n: NodeState, k: nat)
    requires Wide(n)
    ensures EntryAt(n, k).oldVoters < Pow2(WIDTH) && EntryAt(n, k).newVoters < Pow2(WIDTH)
  {
    hide Pow2;
    Pow2Grows(0, WIDTH);
  }

  lemma DecidesExactly(n: NodeState, after: nat, last: nat, mask: nat)
    requires Wide(n)
    ensures Carries(VotersFrom(n, after + 1, last, Voters(n.votersOld, n.votersNew)), mask) <==> Backed(n, after, last, Members(mask))
  {
    hide Carries, Majorities, Members, Pow2, VotersFrom;
    var v := Voters(n.votersOld, n.votersNew);
    if NoJoint(n, after, last) {
      VotersStay(n, after, last, v);
      CarriesExactly(v, mask);
    } else {
      var k := SomeJoint(n, after, last);
      VotersAre(n, after, last, v, k);
      EntryIsWide(n, k);
      CarriesExactly(Voters(EntryAt(n, k).oldVoters, EntryAt(n, k).newVoters), mask);
    }
  }

  /** An index may be committed exactly when the acknowledgements hold a majority of both sets that
      the last joint entry up to it names or, without one, of the voters in force. */
  lemma CommitsExactly(n: NodeState, index: nat, acked: nat)
    requires Wide(n)
    ensures CanCommitIndex(n, index, acked) <==> Backed(n, n.commit, index, Members(acked))
  {
    hide Backed, VotersFrom, Carries, Members, Wide;
    DecidesExactly(n, n.commit, index, acked);
  }

  /** The same of elections and reads, with every joint entry of the log. */
  lemma QuorumExactly(n: NodeState, mask: nat)
    requires Wide(n) && 0 < |n.log|
    ensures QuorumMask(n, mask) <==> Backed(n, Max(n.commit, n.baseIndex), LastIndex(n), Members(mask))
  {
    hide Backed, VotersFrom, Carries, Members, Wide;
    DecidesExactly(n, Max(n.commit, n.baseIndex), LastIndex(n), mask);
  }

  /** A node is a voter exactly when the configuration in force names it, in either set. */
  lemma VotersExactly(n: NodeState, id: Id)
    requires 0 < |n.log| && NodeId(id)
    ensures var after, last := Max(n.commit, n.baseIndex), LastIndex(n);
      && (forall k: nat :: LastJoint(n, after, last, k) ==> (IsVoter(n, id) <==> id in Members(EntryAt(n, k).oldVoters) + Members(EntryAt(n, k).newVoters)))
      && (NoJoint(n, after, last) ==> (IsVoter(n, id) <==> id in Members(n.votersOld) + Members(n.votersNew)))
  {
    hide Members, And, Or, NodeBit, VotersFrom;
    var after, last, v := Max(n.commit, n.baseIndex), LastIndex(n), EffectiveVoters(n);
    if NoJoint(n, after, last) {
      VotersStay(n, after, last, Voters(n.votersOld, n.votersNew));
    } else {
      var k := SomeJoint(n, after, last);
      VotersAre(n, after, last, Voters(n.votersOld, n.votersNew), k);
    }
    BitTest(Or(v.old', v.new'), id);
    OrMembers(v.old', v.new');
  }

  // ----- Committing -----

  /** The nodes known to hold `index`. */
  ghost function Acks(n: NodeState, index: nat): set<Id> {
    {n.id} + set p | p in n.peers && Lookup(n.matched, p) >= index
  }

  lemma {:induction false} AckedMembers(n: NodeState, index: nat, k: nat, mask: nat)
    requires Valid(n) && k <= |n.peers|
    ensures Members(AckedFrom(n, index, k, mask)) == Members(mask) + set p | p in n.peers[k..] && Lookup(n.matched, p) >= index
    decreases |n.peers| - k
  {
    hide Members, NodeBit, Or;
    if k < |n.peers| {
      var p := n.peers[k];
      var more := if Lookup(n.matched, p) >= index then Or(mask, NodeBit(p)) else mask;
      AckedMembers(n, index, k + 1, more);
      OrMembers(mask, NodeBit(p));
      BitMembers(p);
      assert n.peers[k..] == [p] + n.peers[k + 1..];
    }
  }

  lemma AcksAre(n: NodeState, index: nat)
    requires Valid(n)
    ensures Members(AckedMask(n, index)) == Acks(n, index)
  {
    hide Members, NodeBit, AckedFrom;
    AckedMembers(n, index, 0, NodeBit(n.id));
    BitMembers(n.id);
    assert n.peers[0..] == n.peers;
  }

  /** `index` holds an entry of the leader's own term and enough nodes hold it. */
  ghost predicate Ready(n: NodeState, index: nat) {
    TermAt(n, index) == n.term && Backed(n, n.commit, index, Acks(n, index))
  }

  lemma ReadyExactly(n: NodeState, index: nat)
    requires Valid(n) && Wide(n)
    ensures Committable(n, index) <==> Ready(n, index)
  {
    hide Backed, CanCommitIndex, Members, Wide, AckedMask, Acks;
    CommitsExactly(n, index, AckedMask(n, index));
    AcksAre(n, index);
  }

  /** The search for an index to commit finds the highest one, and misses none. */
  lemma {:induction false} HighestCommittable(n: NodeState, index: nat)
    requires Valid(n)
    ensures var r := FindCommittable(n, index);
      && (r.Some? <==> exists i: nat :: n.commit < i <= index && Committable(n, i))
      && (r.Some? ==> n.commit < r.value <= index && Committable(n, r.value) && forall i: nat :: r.value < i <= index ==> !Committable(n, i))
    decreases index
  {
    hide Committable;
    if index > n.commit && !Committable(n, index) { HighestCommittable(n, index - 1); }
  }

  lemma CommitAtIs(n: NodeState, index: nat)
    requires Valid(n)
    ensures var r := CommitAt(n, index); (r.faulted && r.commit == n.commit) || (!r.faulted && r.commit == index)
  {
    hide ApplyFrom, BroadcastFrom, S.SaveHardState;
  }

  /** A leader moves its commit index to the highest index that enough nodes hold, and never to
      another: above a joint entry these are majorities of both its sets. */
  lemma AdvancesExactly(n: NodeState)
    requires Valid(n) && Wide(n)
    ensures var r := AdvanceCommit(n);
      && (r.commit == n.commit || (n.commit < r.commit <= LastIndex(n) && Ready(n, r.commit)))
      && (r.faulted == n.faulted ==> forall i: nat :: n.commit < i <= LastIndex(n) && Ready(n, i) && !n.faulted ==> i <= r.commit)
  {
    hide Committable, FindCommittable, CommitAt, Ready, Wide;
    HighestCommittable(n, LastIndex(n));
    forall i: nat ensures Committable(n, i) <==> Ready(n, i) { ReadyExactly(n, i); }
    var found := FindCommittable(n, LastIndex(n));
    if found.Some? { CommitAtIs(n, found.value); }
  }

  function Grown(n: NodeState, e: Entry): NodeState {
    n.(log := n.log + [e])
  }

  /** An entry of its own a node commits at once exactly when it is the majority by itself, under
      the last joint entry of the log that now ends in the new one. */
  lemma AppendsExactly(n: NodeState, e: Entry)
    requires Valid(n) && Wide(n) && e.oldVoters < Pow2(WIDTH) && e.newVoters < Pow2(WIDTH)
    ensures var r := AppendLocal(n, e); var g := Grown(n, e);
      && (r.commit == n.commit || r.commit == LastIndex(g))
      && (r.commit > n.commit ==> Backed(g, Max(n.commit, n.baseIndex), LastIndex(g), {n.id}))
      && (!r.faulted && Backed(g, Max(n.commit, n.baseIndex), LastIndex(g), {n.id}) ==> r.commit == LastIndex(g))
  {
    hide ApplyFrom, S.SaveHardState, S.Append, QuorumMask, Backed, NodeBit, Members, Pow2, Majorities;
    var n1 := Settle(n, S.Append(n.disk, LastIndex(n) + 1, e));
    var n2 := n1.(log := n1.log + [e]);
    var g := Grown(n, e);
    BitMembers(n.id);
    QuorumExactly(g, NodeBit(n.id));
    if !n1.faulted { SameQuorum(g, n2, NodeBit(n.id)); }
  }

  lemma SameQuorum(n: NodeState, m: NodeState, mask: nat)
    requires 0 < |n.log| && m == n.(disk := m.disk)
    ensures QuorumMask(m, mask) == QuorumMask(n, mask)
  {
    hide Carries;
    SameVoters(n, m, Max(n.commit + 1, n.baseIndex + 1), LastIndex(n), Voters(n.votersOld, n.votersNew));
  }

  lemma {:induction false} SameVoters(n: NodeState, m: NodeState, index: nat, last: nat, v: Voters)
    requires m.log == n.log && m.baseIndex == n.baseIndex
    ensures VotersFrom(m, index, last, v) == VotersFrom(n, index, last, v)
    decreases last + 1 - index
  {
    if index <= last {
      var e := EntryAt(n, index);
      SameVoters(n, m, index + 1, last, if e.kind == JointConfig then Voters(e.oldVoters, e.newVoters) else v);
    }
  }

  // ----- Electing -----

  /** A candidate that becomes leader on an answer has votes from both majorities. */
  lemma ElectedByBoth(n: NodeState, m: Message)
    requires Valid(n) && Wide(n) && NodeId(m.from) && n.state == Candidate && OnVoteResponse(n, m).state == Leader
    ensures Backed(n, Max(n.commit, n.baseIndex), LastIndex(n), Members(n.voteMask) + {m.from})
  {
    hide Backed, QuorumMask, NodeBit, Members, Or, BecomeLeader, IsVoter;
    var n1 := n.(voteMask := Or(n.voteMask, NodeBit(m.from)));
    OrMembers(n.voteMask, NodeBit(m.from));
    BitMembers(m.from);
    QuorumExactly(n, n1.voteMask);
    assert QuorumMask(n1, n1.voteMask) == QuorumMask(n, n1.voteMask) by { SameElectors(n, n1.voteMask); }
  }

  lemma SameElectors(n: NodeState, votes: nat)
    requires 0 < |n.log|
    ensures QuorumMask(n.(voteMask := votes), votes) == QuorumMask(n, votes)
  {
    hide Carries;
    SameVoters(n, n.(voteMask := votes), Max(n.commit + 1, n.baseIndex + 1), LastIndex(n), Voters(n.votersOld, n.votersNew));
  }
}
