/**
 * Membership changes: what a node keeps up step by step is what a restart reads off its log.
 *
 * A node applies configuration entries as they commit and remembers the one that is pending.
 * A restart replays the whole log from the configuration at its base.
 */
module Configuration {
  import opened Quorums
  import opened Bits
  import opened RaftTypes
  import opened NodeModel
  import S = StableStore

  // ----- Replaying a log -----

  function At(base: nat, log: seq<Entry>, index: nat): Entry {
    if base <= index < base + |log| then log[index - base] else ZERO_ENTRY
  }

  /** What replay makes of the entry at `index`. */
  function One(e: Entry, index: nat, commit: nat, c: Replay): Replay {
    match e.kind
    case Normal => c.(ok := e.oldVoters == 0 && e.newVoters == 0)
    case Noop => c.(ok := e.command == 0 && e.oldVoters == 0 && e.newVoters == 0 && e.operation == Legacy)
    case JointConfig =>
      if c.pending != 0 || c.voters.new' != 0 || e.oldVoters != c.voters.old' || e.oldVoters == 0 || e.newVoters == 0
      then c.(ok := false)
      else if index <= commit then c.(voters := Voters(e.oldVoters, e.newVoters))
      else c.(pending := index)
    case FinalConfig =>
      if c.pending != 0 || c.voters.new' == 0 || e.oldVoters != c.voters.new' || e.newVoters != 0
      then c.(ok := false)
      else if index <= commit then c.(voters := Voters(e.oldVoters, 0))
      else c.(pending := index)
  }

  /** The configuration read off the entries above `base` up to `last`. */
  function Read(v: Voters, base: nat, log: seq<Entry>, commit: nat, last: nat): Replay
    decreases last
  {
    if last <= base then Replay(true, v, 0)
    else
      var c := Read(v, base, log, commit, last - 1);
      if c.ok then One(At(base, log, last), last, commit, c) else c
  }

  /** A node started from voters `v` has the configuration that its log spells. */
  ghost predicate Agrees(v: Voters, base: nat, log: seq<Entry>, commit: nat, voters: Voters, pending: nat) {
    0 < |log| && base <= commit < base + |log| && Read(v, base, log, commit, base + |log| - 1) == Replay(true, voters, pending)
  }

  ghost predicate ConfigOk(v: Voters, n: NodeState) {
    Agrees(v, n.baseIndex, n.log, n.commit, Voters(n.votersOld, n.votersNew), n.pendingConfig)
  }

  lemma {:induction false} ReadIsReplay(n: NodeState, last: nat)
    ensures ReplayTo(n, last) == Read(Voters(n.votersOld, n.votersNew), n.baseIndex, n.log, n.commit, last)
    decreases last
  {
    if last > n.baseIndex { ReadIsReplay(n, last - 1); }
  }

  /** A restart restores exactly the voters and the pending change that the live node holds. */
  lemma RestoreAgrees(v: Voters, n: NodeState)
    requires Valid(n) && ConfigOk(v, n)
    ensures var r := RestoreConfiguration(n.(votersOld := v.old', votersNew := v.new'));
      r.faulted == n.faulted && r.votersOld == n.votersOld && r.votersNew == n.votersNew && r.pendingConfig == n.pendingConfig
  {
    hide RestoredPeers;
    ReadIsReplay(n.(votersOld := v.old', votersNew := v.new'), LastIndex(n));
  }

  // ----- What a successful replay looks like -----

  lemma {:induction false} OkBefore(v: Voters, base: nat, log: seq<Entry>, commit: nat, i: nat, last: nat)
    requires i <= last && Read(v, base, log, commit, last).ok
    ensures Read(v, base, log, commit, i).ok
    decreases last - i
  {
    if i < last && base < last { OkBefore(v, base, log, commit, i, last - 1); }
  }

  lemma {:induction false} NothingPending(v: Voters, base: nat, log: seq<Entry>, commit: nat, i: nat)
    requires i <= commit
    ensures Read(v, base, log, commit, i).pending == 0
    decreases i
  {
    if i > base { NothingPending(v, base, log, commit, i - 1); }
  }

  /** Above the commit index voters stand still, and the only configuration entry is the pending one. */
  lemma {:induction false} Shape(v: Voters, base: nat, log: seq<Entry>, commit: nat, last: nat)
    requires base <= commit <= last && Read(v, base, log, commit, last).ok
    ensures var c, c0 := Read(v, base, log, commit, last), Read(v, base, log, commit, commit);
      && c0 == Replay(true, c.voters, 0)
      && (c.pending != 0 ==> commit < c.pending <= last && IsConfig(At(base, log, c.pending)))
    ensures forall k :: commit < k <= last && IsConfig(At(base, log, k)) ==> k == Read(v, base, log, commit, last).pending
    decreases last - commit
  {
    if last == commit {
      NothingPending(v, base, log, commit, commit);
    } else {
      OkBefore(v, base, log, commit, last - 1, last);
      Shape(v, base, log, commit, last - 1);
    }
  }

  /** The pending change as far as index `i`, when `p` is the one pending in the end. */
  function PendingAt(p: nat, i: nat): nat { if p <= i then p else 0 }

  lemma ReadAbove(v: Voters, base: nat, log: seq<Entry>, commit: nat, i: nat, last: nat)
    requires base <= commit <= i <= last && Read(v, base, log, commit, last).ok
    ensures var c := Read(v, base, log, commit, last);
      Read(v, base, log, commit, i) == Replay(true, c.voters, PendingAt(c.pending, i))
  {
    hide Read;
    OkBefore(v, base, log, commit, i, last);
    Shape(v, base, log, commit, i);
    Shape(v, base, log, commit, last);
  }

  lemma {:induction false} SamePrefix(v: Voters, base: nat, log: seq<Entry>, log': seq<Entry>, commit: nat, i: nat)
    requires forall k :: base < k <= i ==> At(base, log, k) == At(base, log', k)
    ensures Read(v, base, log, commit, i) == Read(v, base, log', commit, i)
    decreases i
  {
    if i > base { SamePrefix(v, base, log, log', commit, i - 1); }
  }

  // ----- Appending -----

  predicate Acceptable(voters: Voters, pending: nat, e: Entry) {
    match e.kind
    case Normal => e.oldVoters == 0 && e.newVoters == 0
    case Noop => e.command == 0 && e.oldVoters == 0 && e.newVoters == 0 && e.operation == Legacy
    case JointConfig => pending == 0 && voters.new' == 0 && e.oldVoters == voters.old' && e.oldVoters != 0 && e.newVoters != 0
    case FinalConfig => pending == 0 && voters.new' != 0 && e.oldVoters == voters.new' && e.newVoters == 0
  }

  lemma ValidIsAcceptable(n: NodeState, e: Entry)
    requires ValidNewEntry(n, e)
    ensures Acceptable(Voters(n.votersOld, n.votersNew), n.pendingConfig, e)
  {
  }

  lemma AppendAgrees(v: Voters, base: nat, log: seq<Entry>, commit: nat, voters: Voters, pending: nat, e: Entry)
    requires Agrees(v, base, log, commit, voters, pending) && Acceptable(voters, pending, e)
    ensures Agrees(v, base, log + [e], commit, voters, if IsConfig(e) then base + |log| else pending)
  {
    var last := base + |log| - 1;
    SamePrefix(v, base, log, log + [e], commit, last);
    assert At(base, log + [e], last + 1) == e;
  }

  lemma TruncateAgrees(v: Voters, base: nat, log: seq<Entry>, commit: nat, voters: Voters, pending: nat, k: nat)
    requires Agrees(v, base, log, commit, voters, pending) && k <= |log| && commit < base + k
    ensures Agrees(v, base, log[..k], commit, voters, PendingAt(pending, base + k - 1))
  {
    hide Read;
    ReadAbove(v, base, log, commit, base + k - 1, base + |log| - 1);
    SamePrefix(v, base, log, log[..k], commit, base + k - 1);
  }

  // ----- Committing -----

  /** The voters once the configuration entry `e` has committed. */
  function Committed(voters: Voters, e: Entry): Voters {
    if e.kind == JointConfig then Voters(e.oldVoters, e.newVoters)
    else if e.kind == FinalConfig then Voters(e.oldVoters, 0) else voters
  }

  /** Below the pending change a later commit index makes no difference. */
  lemma {:induction false} SameBelow(v: Voters, base: nat, log: seq<Entry>, c0: nat, c1: nat, p: nat, i: nat)
    requires c0 <= c1 && (forall k :: c0 < k <= c1 && k <= i && IsConfig(At(base, log, k)) ==> k == p)
    requires p == 0 || i < p || c1 < p
    ensures Read(v, base, log, c1, i) == Read(v, base, log, c0, i)
    decreases i
  {
    if i > base { SameBelow(v, base, log, c0, c1, p, i - 1); }
  }

  /** Above the pending change only plain entries follow, and they change nothing. */
  lemma {:induction false} PlainAbove(v: Voters, base: nat, log: seq<Entry>, c0: nat, c1: nat, p: nat, i: nat, c: Replay)
    requires base < p <= i && c.ok && Read(v, base, log, c1, p) == c && Read(v, base, log, c0, i).ok
    requires forall k :: p < k <= i ==> !IsConfig(At(base, log, k))
    ensures Read(v, base, log, c1, i) == c
    decreases i - p
  {
    if i > p {
      OkBefore(v, base, log, c0, i - 1, i);
      PlainAbove(v, base, log, c0, c1, p, i - 1, c);
    }
  }

  lemma CommitAgrees(v: Voters, base: nat, log: seq<Entry>, c0: nat, c1: nat, voters: Voters, pending: nat)
    requires Agrees(v, base, log, c0, voters, pending) && c0 <= c1 < base + |log|
    ensures if pending != 0 && pending <= c1 then Agrees(v, base, log, c1, Committed(voters, At(base, log, pending)), 0)
      else Agrees(v, base, log, c1, voters, pending)
  {
    var last, p := base + |log| - 1, pending;
    Shape(v, base, log, c0, last);
    if p == 0 || c1 < p {
      SameBelow(v, base, log, c0, c1, p, last);
    } else {
      SameBelow(v, base, log, c0, c1, p, p - 1);
      ReadAbove(v, base, log, c0, p - 1, last);
      OkBefore(v, base, log, c0, p, last);
      PlainAbove(v, base, log, c0, c1, p, last, Replay(true, Committed(voters, At(base, log, p)), 0));
    }
  }

  // ----- The node -----

  lemma ApplyOne(n: NodeState, index: nat)
    requires Valid(n) && 0 < index
    ensures var r, e := ApplyConfiguration(n, index), EntryAt(n, index);
      && Voters(r.votersOld, r.votersNew) == Committed(Voters(n.votersOld, n.votersNew), e)
      && r.pendingConfig == if index == n.pendingConfig then 0 else n.pendingConfig
  {
    hide IsVoter, EnsurePeers, Or;
  }

  /** Applying committed entries, of which only the pending one is a configuration. */
  lemma {:induction false} ApplyChanges(n: NodeState, first: nat, last: nat)
    requires Valid(n) && 0 < first <= last + 1
    requires forall k :: first <= k <= last && IsConfig(EntryAt(n, k)) ==> k == n.pendingConfig
    requires first <= n.pendingConfig <= last ==> IsConfig(EntryAt(n, n.pendingConfig))
    ensures var r, p := ApplyFrom(n, first, last), n.pendingConfig;
      if first <= p <= last then r.pendingConfig == 0 && Voters(r.votersOld, r.votersNew) == Committed(Voters(n.votersOld, n.votersNew), EntryAt(n, p))
      else r.pendingConfig == p && r.votersOld == n.votersOld && r.votersNew == n.votersNew
    decreases last + 1 - first
  {
    hide ApplyConfiguration;
    if first <= last {
      var n1 := ApplyConfiguration(n, first);
      ApplyOne(n, first);
      SameEntries(n, n1);
      ApplyChanges(n1, first + 1, last);
    }
  }

  lemma SameEntries(n: NodeState, n': NodeState)
    requires n'.log == n.log && n'.baseIndex == n.baseIndex
    ensures forall k :: EntryAt(n', k) == EntryAt(n, k)
  {
  }

  /** A node whose commit index has moved to `c` agrees once it has applied what committed. */
  lemma CommitConfig(v: Voters, n: NodeState, n1: NodeState, c: nat)
    requires Valid(n) && Valid(n1) && ConfigOk(v, n) && n.commit <= c <= LastIndex(n)
    requires n1.log == n.log && n1.baseIndex == n.baseIndex && n1.commit == c && n1.votersOld == n.votersOld
      && n1.votersNew == n.votersNew && n1.pendingConfig == n.pendingConfig
    ensures ConfigOk(v, ApplyCommittedConfigurations(n1, n.commit + 1, c))
  {
    hide Read, ApplyFrom;
    var last, p := LastIndex(n), n.pendingConfig;
    Shape(v, n.baseIndex, n.log, n.commit, last);
    CommitAgrees(v, n.baseIndex, n.log, n.commit, c, Voters(n.votersOld, n.votersNew), p);
    assert forall k :: EntryAt(n1, k) == At(n.baseIndex, n.log, k);
    ApplyChanges(n1, n.commit + 1, c);
  }

  /** Rebuilding finds the configuration entry that is left above the commit index, if any. */
  lemma {:induction false} RebuildFinds(n: NodeState, first: nat, p: nat)
    requires Valid(n) && 0 < first <= LastIndex(n) + 1
    requires forall k :: first <= k <= LastIndex(n) && IsConfig(EntryAt(n, k)) ==> k == p
    requires first <= p <= LastIndex(n) ==> IsConfig(EntryAt(n, p))
    ensures RebuildFrom(n, first).pendingConfig == if first <= p <= LastIndex(n) then p else n.pendingConfig
    decreases LastIndex(n) + 1 - first
  {
    hide EnsurePeers, Or;
    if first <= LastIndex(n) {
      var e := EntryAt(n, first);
      var n1 := if IsConfig(e) then EnsurePeers(n.(pendingConfig := first), Or(e.oldVoters, e.newVoters)) else n;
      SameEntries(n, n1);
      RebuildFinds(n1, first + 1, p);
    }
  }

  lemma TruncateConfig(v: Voters, n: NodeState, k: nat)
    requires Valid(n) && ConfigOk(v, n) && k <= |n.log| && n.commit < n.baseIndex + k
    ensures ConfigOk(v, RebuildPendingConfig(n.(log := n.log[..k])))
  {
    hide Read, RebuildFrom;
    var p, cut := n.pendingConfig, n.(log := n.log[..k], pendingConfig := 0);
    Shape(v, n.baseIndex, n.log, n.commit, LastIndex(n));
    TruncateAgrees(v, n.baseIndex, n.log, n.commit, Voters(n.votersOld, n.votersNew), p, k);
    assert forall i :: n.commit < i <= LastIndex(cut) ==> EntryAt(cut, i) == At(n.baseIndex, n.log, i);
    RebuildFinds(cut, n.commit + 1, p);
  }

  /** Appending one acceptable entry, and remembering it when it is a configuration. */
  lemma AppendConfig(v: Voters, n: NodeState, e: Entry, r: NodeState)
    requires 0 < |n.log| && ConfigOk(v, n) && Acceptable(Voters(n.votersOld, n.votersNew), n.pendingConfig, e)
    requires r.log == n.log + [e] && r.baseIndex == n.baseIndex && r.commit == n.commit && r.votersOld == n.votersOld && r.votersNew == n.votersNew
    requires r.pendingConfig == if IsConfig(e) then LastIndex(n) + 1 else n.pendingConfig
    ensures ConfigOk(v, r)
  {
    hide Read;
    AppendAgrees(v, n.baseIndex, n.log, n.commit, Voters(n.votersOld, n.votersNew), n.pendingConfig, e);
  }

  /** A follower that stores an entry above its commit index, replacing a conflicting suffix,
      still agrees with its log. */
  lemma StoreEntryConfig(v: Voters, n: NodeState, at: nat, e: Entry)
    requires Valid(n) && !n.faulted && ConfigOk(v, n) && n.commit < at <= LastIndex(n) + 1
    requires at == LastIndex(Cleared(n, at, e)) + 1 ==> ValidNewEntry(Cleared(n, at, e), e)
    ensures var r := StoreEntry(n, at, e); !r.faulted ==> ConfigOk(v, r)
  {
    hide Read, RebuildPendingConfig, EnsurePeers, Or, S.Append, ValidNewEntry, Agrees;
    Bounds(v, n);
    var n1 := Cleared(n, at, e);
    if InLog(n, at) && TermAt(n, at) != e.term { TruncateConfig(v, n, at - n.baseIndex); }
    var r := StoreEntry(n, at, e);
    if at == LastIndex(n1) + 1 && !r.faulted {
      ValidIsAcceptable(n1, e);
      AppendConfig(v, n1, e, r);
    }
  }

  lemma Bounds(v: Voters, n: NodeState)
    requires ConfigOk(v, n)
    ensures 0 < |n.log| && n.baseIndex <= n.commit <= LastIndex(n)
  {
  }

  lemma FollowCommitConfig(v: Voters, n: NodeState, m: Message)
    requires Valid(n) && !n.faulted && ConfigOk(v, n) && MatchedIndex(m) <= LastIndex(n)
    ensures var r := FollowCommit(n, m); !r.faulted ==> ConfigOk(v, r)
  {
    hide Agrees, ApplyCommittedConfigurations;
    if m.commit > n.commit && MatchedIndex(m) > n.commit {
      var c := Min(m.commit, MatchedIndex(m));
      var n1 := Persist(n, HardState(n.term, n.votedFor, c));
      if !n1.faulted { CommitConfig(v, n, n1.(commit := c), c); }
    }
  }

  lemma CommitAtConfig(v: Voters, n: NodeState, index: nat)
    requires Valid(n) && !n.faulted && ConfigOk(v, n) && n.commit <= index <= LastIndex(n)
    ensures var r := CommitAt(n, index); !r.faulted ==> ConfigOk(v, r)
  {
    hide Agrees, ApplyCommittedConfigurations, BroadcastFrom;
    var n1 := Persist(n, HardState(n.term, n.votedFor, index));
    if !n1.faulted { CommitConfig(v, n, n1.(commit := index), index); }
  }

  /** A leader's own plain entry, committed at once when the leader is alone. */
  lemma AppendLocalConfig(v: Voters, n: NodeState, e: Entry)
    requires Valid(n) && !n.faulted && ConfigOk(v, n) && !IsConfig(e) && Acceptable(Voters(n.votersOld, n.votersNew), n.pendingConfig, e)
    ensures var r := AppendLocal(n, e); !r.faulted ==> ConfigOk(v, r)
  {
    hide Agrees, ApplyCommittedConfigurations, QuorumMask, NodeBit, S.Append;
    var n1 := Settle(n, S.Append(n.disk, LastIndex(n) + 1, e));
    if !n1.faulted {
      var n2 := n1.(log := n1.log + [e]);
      Bounds(v, n);
      AppendConfig(v, n, e, n2);
      if QuorumMask(n2, NodeBit(n2.id)) {
        var n3 := Persist(n2.(commit := LastIndex(n2)), HardState(n2.term, n2.votedFor, LastIndex(n2)));
        if !n3.faulted { CommitConfig(v, n2, n3, LastIndex(n2)); }
      }
    }
  }

  // ----- Proposing a change -----

  /** Some voter is left in every configuration read off a log that starts with one. */
  lemma {:induction false} NeverEmpty(v: Voters, base: nat, log: seq<Entry>, commit: nat, last: nat)
    requires v.old' != 0
    ensures Read(v, base, log, commit, last).voters.old' != 0
    decreases last
  {
    if last > base { NeverEmpty(v, base, log, commit, last - 1); }
  }

  lemma HasVoters(v: Voters, n: NodeState)
    requires v.old' != 0 && ConfigOk(v, n)
    ensures n.votersOld != 0
  {
    hide Read;
    NeverEmpty(v, n.baseIndex, n.log, n.commit, LastIndex(n));
  }

  lemma {:induction false} MaskNotEmpty(ids: seq<Id>, k: nat, mask: nat)
    requires k <= |ids| && (forall id :: id in ids ==> NodeId(id)) && VoterMaskFrom(ids, k, mask).Some? && (mask != 0 || k < |ids|)
    ensures VoterMaskFrom(ids, k, mask).value != 0
    decreases |ids| - k
  {
    hide And, NodeBit;
    if k < |ids| {
      OrNotEmpty(mask, NodeBit(ids[k]));
      MaskNotEmpty(ids, k + 1, Or(mask, NodeBit(ids[k])));
    }
  }

  lemma OrNotEmpty(a: nat, b: nat)
    requires b != 0
    ensures Or(a, b) != 0
  {
    if a != 0 { if a % 2 == 0 && b % 2 == 0 { OrNotEmpty(a / 2, b / 2); } }
  }

  lemma {:induction false} MaskIsNotEmpty(peers: seq<Id>, k: nat, mask: nat)
    requires k <= |peers| && (forall p :: p in peers ==> NodeId(p)) && mask != 0
    ensures MaskFrom(peers, k, mask) != 0
    decreases |peers| - k
  {
    hide NodeBit;
    if k < |peers| {
      OrNotEmpty(mask, NodeBit(peers[k]));
      MaskIsNotEmpty(peers, k + 1, Or(mask, NodeBit(peers[k])));
    }
  }

  /** With `e` in its log the node would be a quorum by itself. */
  predicate Alone(n: NodeState, e: Entry)
    requires NodeId(n.id)
  {
    QuorumMask(n.(log := n.log + [e]), NodeBit(n.id))
  }

  lemma {:induction false} SameVotersFrom(n: NodeState, n': NodeState, index: nat, last: nat, v: Voters)
    requires n'.log == n.log && n'.baseIndex == n.baseIndex
    ensures VotersFrom(n, index, last, v) == VotersFrom(n', index, last, v)
    decreases last + 1 - index
  {
    if index <= last {
      SameEntries(n, n');
      var e := EntryAt(n, index);
      SameVotersFrom(n, n', index + 1, last, if e.kind == JointConfig then Voters(e.oldVoters, e.newVoters) else v);
    }
  }

  lemma SameQuorum(n: NodeState, n': NodeState, mask: nat)
    requires 0 < |n.log| && n'.log == n.log && n'.baseIndex == n.baseIndex && n'.commit == n.commit
      && n'.votersOld == n.votersOld && n'.votersNew == n.votersNew
    ensures QuorumMask(n, mask) == QuorumMask(n', mask)
  {
    SameVotersFrom(n, n', Max(n.commit + 1, n.baseIndex + 1), LastIndex(n), Voters(n.votersOld, n.votersNew));
  }

  /** A leader's own configuration entry: pending as intended, unless the leader commits it at once. */
  lemma ChangeAppended(v: Voters, n: NodeState, n0: NodeState, e: Entry)
    requires Valid(n) && Valid(n0) && !n.faulted && ConfigOk(v, n) && IsConfig(e) && Acceptable(Voters(n.votersOld, n.votersNew), n.pendingConfig, e)
    requires n0 == n.(peers := n0.peers, next := n0.next, matched := n0.matched)
    ensures var n1 := AppendLocal(n0, e); !n1.faulted ==>
      (ConfigOk(v, n1.(pendingConfig := LastIndex(n1))) <==> !Alone(n, e))
  {
    hide Agrees, ApplyCommittedConfigurations, QuorumMask, NodeBit, S.Append;
    var m1 := Settle(n0, S.Append(n0.disk, LastIndex(n0) + 1, e));
    var n1 := AppendLocal(n0, e);
    if !m1.faulted && !n1.faulted {
      var n2 := m1.(log := m1.log + [e]);
      SameQuorum(n.(log := n.log + [e]), n2, NodeBit(n.id));
      Bounds(v, n);
      if QuorumMask(n2, NodeBit(n2.id)) {
        CommitsAll(v, n1);
      } else {
        AppendConfig(v, n, e, n2.(pendingConfig := LastIndex(n2)));
      }
    }
  }

  /** Nothing is pending once everything is committed. */
  lemma CommitsAll(v: Voters, n: NodeState)
    requires 0 < |n.log| && n.commit == LastIndex(n) && 0 < LastIndex(n)
    ensures !ConfigOk(v, n.(pendingConfig := LastIndex(n)))
  {
    hide Read;
    NothingPending(v, n.baseIndex, n.log, n.commit, LastIndex(n));
  }

  /**
   * Proposing a joint configuration keeps the node in agreement with its log exactly when the
   * leader is not a quorum by itself: alone, it commits the entry before marking it pending.
   */
  lemma ProposeJointExactly(v: Voters, n: NodeState, ids: seq<Id>)
    requires Valid(n) && ConfigOk(v, n) && v.old' != 0 && (forall id :: id in ids ==> NodeId(id))
    requires CanPropose(n) && n.votersNew == 0 && n.pendingConfig == 0 && VoterMask(ids).Some?
    requires !ProposeJoint(n, ids).faulted
    ensures ConfigOk(v, ProposeJoint(n, ids)) <==>
      !Alone(n, ZERO_ENTRY.(term := n.term, kind := JointConfig, oldVoters := n.votersOld, newVoters := VoterMask(ids).value))
  {
    hide Agrees, AppendLocal, Alone, BroadcastFrom, EnsureFrom, Or, And;
    var mask := VoterMask(ids).value;
    var e := ZERO_ENTRY.(term := n.term, kind := JointConfig, oldVoters := n.votersOld, newVoters := mask);
    HasVoters(v, n);
    MaskNotEmpty(ids, 0, 0);
    ChangeAppended(v, n, EnsurePeers(n, mask), e);
  }

  lemma ProposeFinalExactly(v: Voters, n: NodeState)
    requires Valid(n) && ConfigOk(v, n) && CanPropose(n) && n.votersNew != 0 && n.pendingConfig == 0 && !ProposeFinal(n).faulted
    ensures ConfigOk(v, ProposeFinal(n)) <==> !Alone(n, ZERO_ENTRY.(term := n.term, kind := FinalConfig, oldVoters := n.votersNew))
  {
    hide Agrees, AppendLocal, Alone, BroadcastFrom;
    ChangeAppended(v, n, n, ZERO_ENTRY.(term := n.term, kind := FinalConfig, oldVoters := n.votersNew));
  }
}
