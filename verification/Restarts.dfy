/**
 * When a restarted node runs.  A restart reads the configuration off the log again, from the
 * voters its snapshot names or, without a snapshot, from the peers it is given; it stops at an
 * entry that does not follow from them.
 */
module Restarts {
  import opened Quorums
  import opened Bits
  import opened RaftTypes
  import opened NodeModel
  import opened Configuration
  import D = NodeDurability
  import S = StableStore

  // ----- Reading a log from other voters -----

  /** The first configuration entry from index `i` on, or the index after `last`. */
  function FirstChange(base: nat, log: seq<Entry>, i: nat, last: nat): (k: nat)
    ensures i <= last ==> i <= k <= last + 1
    decreases last + 1 - i
  {
    if i > last then last + 1 else if IsConfig(At(base, log, i)) then i else FirstChange(base, log, i + 1, last)
  }

  /** The first configuration entry above the base, if there is one, follows from voters `u`. */
  predicate Accepts(u: Voters, base: nat, log: seq<Entry>, last: nat) {
    var k := FirstChange(base, log, base + 1, last);
    k > last || Acceptable(u, 0, At(base, log, k))
  }

  lemma {:induction false} FirstChangeGrows(base: nat, log: seq<Entry>, i: nat, last: nat)
    requires i <= last + 1
    ensures var k, k' := FirstChange(base, log, i, last), FirstChange(base, log, i, last + 1);
      k' == if k <= last then k else if IsConfig(At(base, log, last + 1)) then last + 1 else last + 2
    decreases last + 1 - i
  {
    if i <= last && !IsConfig(At(base, log, i)) { FirstChangeGrows(base, log, i + 1, last); }
  }

  /** What reading from `u` gives, when reading from the right voters gives `c`. */
  predicate Elsewhere(u: Voters, v: Voters, base: nat, log: seq<Entry>, commit: nat, last: nat, c: Replay, d: Replay) {
    var k := FirstChange(base, log, base + 1, last);
    if k > last then c == Replay(true, v, 0) && d == Replay(true, u, 0)
    else
      && (k > commit ==> c.pending == k)
      && (d.ok <==> Acceptable(u, 0, At(base, log, k)))
      && (d.ok ==> d == Replay(true, if k <= commit then c.voters else u, c.pending))
  }

  lemma {:induction false} ReadElsewhere(u: Voters, v: Voters, base: nat, log: seq<Entry>, commit: nat, last: nat)
    requires base <= last && Read(v, base, log, commit, last).ok
    ensures Elsewhere(u, v, base, log, commit, last, Read(v, base, log, commit, last), Read(u, base, log, commit, last))
    decreases last
  {
    if base < last {
      OkBefore(v, base, log, commit, last - 1, last);
      ReadElsewhere(u, v, base, log, commit, last - 1);
      FirstChangeGrows(base, log, base + 1, last - 1);
    }
  }

  /** Reading on from an index up to the commit index is reading from the voters there. */
  lemma {:induction false} ReadFromMiddle(v: Voters, base: nat, log: seq<Entry>, commit: nat, index: nat, last: nat)
    requires base <= index <= last && index <= commit && index - base <= |log| && Read(v, base, log, commit, last).ok
    ensures Read(v, base, log, commit, last) == Read(Read(v, base, log, commit, index).voters, index, log[index - base..], commit, last)
    decreases last
  {
    if index < last {
      OkBefore(v, base, log, commit, last - 1, last);
      ReadFromMiddle(v, base, log, commit, index, last - 1);
    } else {
      NothingPending(v, base, log, commit, index);
    }
  }

  // ----- What a restart makes of the configuration -----

  function Rebuilt(u: Voters, base: nat, log: seq<Entry>, commit: nat): Replay
    requires 0 < |log|
  {
    Read(u, base, log, commit, base + |log| - 1)
  }

  lemma RestoreReads(n: NodeState)
    requires Valid(n) && !n.faulted
    ensures var c, r := Rebuilt(Voters(n.votersOld, n.votersNew), n.baseIndex, n.log, n.commit), RestoreConfiguration(n);
      && (r.faulted <==> !c.ok)
      && (c.ok ==> r.votersOld == c.voters.old' && r.votersNew == c.voters.new' && r.pendingConfig == c.pending)
  {
    hide RestoredPeers, ReplayTo, Read;
    ReadIsReplay(n, LastIndex(n));
  }

  lemma RecoveredReads(id: Id, peers: seq<Id>, timeout: nat, d: S.Disk, hard: HardState, log: seq<Entry>)
    requires NodeId(id) && (forall p :: p in peers ==> NodeId(p)) && Distinct(id, peers) && hard.commit < |log|
    ensures var r, c := RecoveredNode(id, peers, timeout, d, hard, log), Rebuilt(Voters(MaskFrom(peers, 0, NodeBit(id)), 0), 0, log, hard.commit);
      && (r.faulted <==> !c.ok)
      && (c.ok ==> r.votersOld == c.voters.old' && r.votersNew == c.voters.new' && r.pendingConfig == c.pending)
  {
    hide RestoreConfiguration, MaskFrom, Rebuilt, NodeBit;
    var n := NewNode(id, peers, timeout, d).(term := hard.term, votedFor := hard.votedFor, commit := hard.commit, log := log);
    RestoreReads(n);
  }

  lemma RecoveredSnapshotReads(id: Id, peers: seq<Id>, timeout: nat, d: S.Disk, hard: HardState, s: Snapshot, suffix: seq<Entry>)
    requires NodeId(id) && (forall p :: p in peers ==> NodeId(p)) && Distinct(id, peers)
    requires s.oldVoters != 0 && Max(hard.commit, s.lastIndex) <= s.lastIndex + |suffix|
    ensures var r := RecoveredNodeWithSnapshot(id, peers, timeout, d, hard, s, suffix);
      var c := Rebuilt(Voters(s.oldVoters, s.newVoters), s.lastIndex, [ZERO_ENTRY.(term := s.lastTerm)] + suffix, Max(hard.commit, s.lastIndex));
      && (r.faulted <==> !c.ok)
      && (c.ok ==> r.votersOld == c.voters.old' && r.votersNew == c.voters.new' && r.pendingConfig == c.pending)
  {
    hide RestoreConfiguration, MaskFrom, Rebuilt, NodeBit, EnsurePeers, Or;
    var n := NewNode(id, peers, timeout, d).(term := hard.term, votedFor := hard.votedFor, baseIndex := s.lastIndex, baseTerm := s.lastTerm,
                                             snapshot := s, votersOld := s.oldVoters, votersNew := s.newVoters);
    var n1 := EnsurePeers(n, Or(n.votersOld, n.votersNew)).(log := [ZERO_ENTRY.(term := s.lastTerm)] + suffix,
                                                           commit := Max(hard.commit, s.lastIndex), applied := s.lastIndex);
    RestoreReads(n1);
  }

  /** The voters a restart starts from. */
  function StartVoters(id: Id, peers: seq<Id>, image: Snapshot): Voters
    requires NodeId(id) && (forall p :: p in peers ==> NodeId(p))
  {
    if image.lastIndex != 0 then Voters(image.oldVoters, image.newVoters) else Voters(MaskFrom(peers, 0, NodeBit(id)), 0)
  }

  lemma SameReading(u: Voters, base: nat, log: seq<Entry>, log': seq<Entry>, commit: nat)
    requires 0 < |log| == |log'| && log[1..] == log'[1..]
    ensures Rebuilt(u, base, log, commit) == Rebuilt(u, base, log', commit)
  {
    hide Read;
    forall k | base < k <= base + |log| - 1 ensures At(base, log, k) == At(base, log', k) {
      assert log[1..][k - base - 1] == log'[1..][k - base - 1];
    }
    SamePrefix(u, base, log, log', commit, base + |log| - 1);
  }

  lemma RebuildReads(n: NodeState, peers: seq<Id>)
    requires Valid(n) && !n.faulted && D.Mirror(n) && (forall p :: p in peers ==> NodeId(p)) && Distinct(n.id, peers)
    requires !D.Voterless(n.disk)
    ensures 0 < |n.disk.wal.data| && D.Rebuild(n.id, peers, n.timeout, n.disk).Some?
    ensures var r, c := D.Rebuild(n.id, peers, n.timeout, n.disk).value, Rebuilt(StartVoters(n.id, peers, n.disk.image), n.baseIndex, n.log, n.commit);
      && (r.faulted <==> !c.ok)
      && (c.ok ==> r.votersOld == c.voters.old' && r.votersNew == c.voters.new' && r.pendingConfig == c.pending)
  {
    hide RecoveredNode, RecoveredNodeWithSnapshot, Rebuilt, MaskFrom, NodeBit;
    D.SameSize(n.log, n.disk.wal.data);
    D.RebuildsSame(n, peers);
    D.SoundWhileRunning(n);
    D.Reopened(n.disk.image, n.disk.wal);
    var image, suffix := n.disk.image, n.disk.wal.data[1..];
    var d := n.disk.(pending := NO_SNAPSHOT);
    var u := StartVoters(n.id, peers, image);
    if image.lastIndex != 0 {
      RecoveredSnapshotReads(n.id, peers, n.timeout, d, n.disk.wal.hard, image, suffix);
      SameReading(u, n.baseIndex, n.log, [ZERO_ENTRY.(term := image.lastTerm)] + suffix, n.commit);
    } else {
      RecoveredReads(n.id, peers, n.timeout, d, n.disk.wal.hard, [ZERO_ENTRY] + suffix);
      SameReading(u, n.baseIndex, n.log, [ZERO_ENTRY] + suffix, n.commit);
    }
  }

  /** Nothing wrong with the voters that a restart ends with. */
  predicate SetsRight(u: Voters, v: Voters, n: NodeState)
    requires 0 < |n.log|
  {
    u == v || FirstChange(n.baseIndex, n.log, n.baseIndex + 1, LastIndex(n)) <= n.commit
  }

  lemma ReadsAgain(u: Voters, v: Voters, n: NodeState)
    requires 0 < |n.log| && ConfigOk(v, n)
    ensures var c := Rebuilt(u, n.baseIndex, n.log, n.commit);
      && (c.ok <==> Accepts(u, n.baseIndex, n.log, LastIndex(n)))
      && (c.ok ==> c.pending == n.pendingConfig)
      && (c.ok && SetsRight(u, v, n) ==> c.voters == Voters(n.votersOld, n.votersNew))
  {
    hide Read, FirstChange, Acceptable;
    ReadElsewhere(u, v, n.baseIndex, n.log, n.commit, LastIndex(n));
  }

  /**
   * A running node whose configuration is what its log spells, restarted: it runs exactly when
   * its snapshot, if it has one, names voters, and the first configuration entry of its log, if
   * there is one, follows from the voters the restart starts from.  Then the same change is
   * pending, and the voters are the same unless the restart started from others and nothing
   * committed put them right.
   */
  lemma RebuildRuns(v: Voters, n: NodeState, peers: seq<Id>)
    requires Valid(n) && !n.faulted && D.Mirror(n) && ConfigOk(v, n) && (forall p :: p in peers ==> NodeId(p)) && Distinct(n.id, peers)
    ensures 0 < |n.disk.wal.data| && D.Rebuild(n.id, peers, n.timeout, n.disk).Some?
    ensures var r, u := D.Rebuild(n.id, peers, n.timeout, n.disk).value, StartVoters(n.id, peers, n.disk.image);
      && (!r.faulted <==> !D.Voterless(n.disk) && Accepts(u, n.baseIndex, n.log, LastIndex(n)))
      && (!r.faulted ==> r.pendingConfig == n.pendingConfig)
      && (!r.faulted && SetsRight(u, v, n) ==> r.votersOld == n.votersOld && r.votersNew == n.votersNew)
  {
    hide Rebuilt, Accepts, SetsRight, D.Mirror, D.Rebuild, D.Voterless, StartVoters, ConfigOk;
    D.RebuildsSame(n, peers);
    ReadsAgain(StartVoters(n.id, peers, n.disk.image), v, n);
    if !D.Voterless(n.disk) { RebuildReads(n, peers); }
  }

  // ----- After a compaction -----

  /** The first configuration entry between `index` and the commit index, if there is one,
      follows from the voters at the commit index. */
  predicate SafeCut(n: NodeState, index: nat) {
    var k := FirstChange(n.baseIndex, n.log, index + 1, n.commit);
    k > n.commit || Acceptable(Voters(n.votersOld, n.votersNew), 0, At(n.baseIndex, n.log, k))
  }

  /** Looking further up finds nothing but the pending change, which does follow from them. */
  lemma {:induction false} FirstChangeAbove(base: nat, log: seq<Entry>, i: nat, commit: nat, last: nat)
    requires i <= commit + 1 <= last + 1
    ensures var k, k' := FirstChange(base, log, i, commit), FirstChange(base, log, i, last);
      k' == if k <= commit then k else FirstChange(base, log, commit + 1, last)
    decreases commit + 1 - i
  {
    if i <= commit && !IsConfig(At(base, log, i)) { FirstChangeAbove(base, log, i + 1, commit, last); }
  }

  lemma {:induction false} FirstChangeIs(base: nat, log: seq<Entry>, i: nat, last: nat)
    ensures var k := FirstChange(base, log, i, last); k <= last ==> i <= k && IsConfig(At(base, log, k))
    decreases last + 1 - i
  {
    if i <= last && !IsConfig(At(base, log, i)) { FirstChangeIs(base, log, i + 1, last); }
  }

  lemma {:induction false} FirstChangeBelow(base: nat, log: seq<Entry>, k: nat, i: nat, last: nat)
    requires k < |log| && base + k <= i
    ensures FirstChange(base + k, log[k..], i, last) == FirstChange(base, log, i, last)
    decreases last + 1 - i
  {
    if i <= last { FirstChangeBelow(base, log, k, i + 1, last); }
  }

  /** The pending change follows from the voters at the commit index. */
  lemma PendingFollows(v: Voters, n: NodeState, k: nat)
    requires ConfigOk(v, n) && n.commit < k <= LastIndex(n) && IsConfig(At(n.baseIndex, n.log, k))
    ensures Acceptable(Voters(n.votersOld, n.votersNew), 0, At(n.baseIndex, n.log, k))
  {
    var base, log, commit, last := n.baseIndex, n.log, n.commit, n.baseIndex + |n.log| - 1;
    Shape(v, base, log, commit, last);
    ReadAbove(v, base, log, commit, k - 1, last);
    OkBefore(v, base, log, commit, k, last);
  }

  lemma CutAccepts(v: Voters, n: NodeState, index: nat)
    requires ConfigOk(v, n) && n.baseIndex <= index <= n.commit
    ensures index - n.baseIndex < |n.log|
    ensures Accepts(Voters(n.votersOld, n.votersNew), index, n.log[index - n.baseIndex..], LastIndex(n)) <==> SafeCut(n, index)
  {
    hide Read, FirstChange, Acceptable;
    Bounds(v, n);
    var base, log, last := n.baseIndex, n.log, LastIndex(n);
    FirstChangeBelow(base, log, index - base, index + 1, last);
    FirstChangeAbove(base, log, index + 1, n.commit, last);
    FirstChangeIs(base, log, n.commit + 1, last);
    var k, k' := FirstChange(base, log, index + 1, n.commit), FirstChange(base, log, index + 1, last);
    if k > n.commit && k' <= last { PendingFollows(v, n, k'); }
    SameSlice(base, log, index - base, k');
  }

  /** Without a change in between, the voters at the cut are those at the commit index. */
  lemma SameInBetween(v: Voters, n: NodeState, index: nat)
    requires ConfigOk(v, n) && n.baseIndex <= index <= n.commit && FirstChange(n.baseIndex, n.log, index + 1, n.commit) > n.commit
    ensures Read(v, n.baseIndex, n.log, n.commit, index).voters == Voters(n.votersOld, n.votersNew)
  {
    hide Read, FirstChange;
    Bounds(v, n);
    var base, log, commit, last := n.baseIndex, n.log, n.commit, LastIndex(n);
    Shape(v, base, log, commit, last);
    var u := Read(v, base, log, commit, index).voters;
    ReadFromMiddle(v, base, log, commit, index, commit);
    ReadElsewhere(u, u, index, log[index - base..], commit, commit);
    FirstChangeBelow(base, log, index - base, index + 1, commit);
  }

  lemma CutSetsRight(v: Voters, n: NodeState, index: nat, r: NodeState)
    requires ConfigOk(v, n) && n.baseIndex <= index <= n.commit && SafeCut(n, index)
    requires index - n.baseIndex < |n.log| && r.log == n.log[index - n.baseIndex..] && r.baseIndex == index && r.commit == n.commit
    ensures SetsRight(Voters(n.votersOld, n.votersNew), Read(v, n.baseIndex, n.log, n.commit, index).voters, r)
  {
    hide Read, FirstChange, Acceptable;
    Bounds(v, n);
    var base, log, last := n.baseIndex, n.log, LastIndex(n);
    FirstChangeBelow(base, log, index - base, index + 1, last);
    FirstChangeAbove(base, log, index + 1, n.commit, last);
    if FirstChange(base, log, index + 1, n.commit) > n.commit { SameInBetween(v, n, index); }
  }

  lemma SameSlice(base: nat, log: seq<Entry>, k: nat, i: nat)
    requires k < |log|
    ensures base + k <= i ==> At(base + k, log[k..], i) == At(base, log, i)
  {
  }

  lemma CompactShape(n: NodeState, index: nat, state: seq<Byte>)
    requires Valid(n) && !n.faulted && n.baseIndex < index <= n.applied && InLog(n, index) && !Compact(n, index, state).faulted
    ensures var r := Compact(n, index, state);
      && r.log == n.log[index - n.baseIndex..] && r.baseIndex == index && r.commit == n.commit && r.id == n.id && r.timeout == n.timeout
      && r.votersOld == n.votersOld && r.votersNew == n.votersNew && r.pendingConfig == n.pendingConfig
      && r.disk.image.lastIndex == index && r.disk.image.oldVoters == n.votersOld && r.disk.image.newVoters == n.votersNew
  {
    hide S.Fence;
  }

  lemma CompactStarts(n: NodeState, index: nat, state: seq<Byte>, peers: seq<Id>)
    requires Valid(n) && !n.faulted && n.baseIndex < index <= n.applied && InLog(n, index) && !Compact(n, index, state).faulted
    requires n.votersOld != 0 && (forall p :: p in peers ==> NodeId(p))
    ensures var r := Compact(n, index, state);
      StartVoters(n.id, peers, r.disk.image) == Voters(n.votersOld, n.votersNew) && !D.Voterless(r.disk)
  {
    hide Compact, MaskFrom, NodeBit;
    CompactShape(n, index, state);
  }

  /** A compacted node still has the configuration that its log spells. */
  lemma CompactedAgrees(v: Voters, n: NodeState, index: nat, state: seq<Byte>)
    requires Valid(n) && !n.faulted && ConfigOk(v, n) && n.baseIndex < index <= n.applied <= n.commit && !Compact(n, index, state).faulted
    ensures InLog(n, index) && ConfigOk(Read(v, n.baseIndex, n.log, n.commit, index).voters, Compact(n, index, state))
  {
    hide Read, Compact;
    Bounds(v, n);
    CompactShape(n, index, state);
    ReadFromMiddle(v, n.baseIndex, n.log, n.commit, index, LastIndex(n));
  }

  /**
   * A node that has compacted its log restarts exactly when the cut was safe.  The snapshot keeps
   * the voters of the commit index under the number of an earlier entry, so that a configuration
   * entry committed in between is read a second time.
   */
  lemma CompactRestarts(v: Voters, n: NodeState, index: nat, state: seq<Byte>, peers: seq<Id>)
    requires Valid(n) && !n.faulted && D.Mirror(n) && ConfigOk(v, n) && v.old' != 0
    requires (forall p :: p in peers ==> NodeId(p)) && Distinct(n.id, peers)
    requires n.baseIndex < index <= n.applied && !Compact(n, index, state).faulted
    ensures var r := Compact(n, index, state);
      && 0 < |r.disk.wal.data| && D.Rebuild(n.id, peers, n.timeout, r.disk).Some?
      && var again := D.Rebuild(n.id, peers, n.timeout, r.disk).value;
      && (!again.faulted <==> SafeCut(n, index))
      && (!again.faulted ==>
            again.pendingConfig == n.pendingConfig && again.votersOld == n.votersOld && again.votersNew == n.votersNew)
  {
    hide Read, Compact, D.Mirrored, SafeCut, Accepts, SetsRight, ConfigOk, D.Rebuild, D.Halted, StartVoters;
    D.MirrorIsSane(n);
    HasVoters(v, n);
    var r := Compact(n, index, state);
    D.CompactKept(n, index, state);
    CompactShape(n, index, state);
    CompactedAgrees(v, n, index, state);
    CutAccepts(v, n, index);
    CompactStarts(n, index, state, peers);
    if SafeCut(n, index) { CutSetsRight(v, n, index, r); }
    RebuildRuns(Read(v, n.baseIndex, n.log, n.commit, index).voters, r, peers);
  }

  // ----- A node that does not come back -----

  /** A follower that hears of one more entry, committed at once, with three writes to spare. */
  predicate Hears(n: NodeState, m: Message) {
    && Valid(n) && !n.faulted && D.Mirror(n) && NodeId(m.from) && m.kind == Append && n.term <= m.term && m.hasEntry
    && m.logIndex == LastIndex(n) == n.commit && m.commit == m.logIndex + 1 && m.logTerm == TermAt(n, m.logIndex)
    && ValidNewEntry(n, m.entry) && n.pendingConfig == 0 && n.disk.budget >= 3
  }

  lemma AdoptRuns(n: NodeState, m: Message)
    requires Valid(n) && !n.faulted && D.Mirror(n) && m.kind == Append && n.term <= m.term && n.disk.budget >= 3
    ensures var r := AdoptTerm(n, m);
      && !r.faulted && D.Mirror(r) && r.term == m.term && r.disk.budget >= n.disk.budget - 1
      && r == n.(disk := r.disk, state := r.state, term := m.term, votedFor := r.votedFor, leader := r.leader, readReady := r.readReady)
  {
    D.SameSize(n.log, n.disk.wal.data);
    hide D.SameLog;
  }

  lemma StoreRuns(n: NodeState, e: Entry)
    requires Valid(n) && !n.faulted && D.Mirror(n) && n.disk.budget >= 2
    ensures var r := StoreEntry(n, LastIndex(n) + 1, e);
      && !r.faulted && D.Mirror(r) && r.disk.budget == n.disk.budget - 1 && r.log == n.log + [e] && r.baseIndex == n.baseIndex && r.commit == n.commit
      && r.applied == n.applied && r.term == n.term && r.votedFor == n.votedFor && r.votersOld == n.votersOld && r.votersNew == n.votersNew
      && r.pendingConfig == if IsConfig(e) then LastIndex(n) + 1 else n.pendingConfig
  {
    D.SameSize(n.log, n.disk.wal.data);
    D.MirrorIsSane(n);
    D.StoreEntryKept(n, LastIndex(n) + 1, e);
    hide D.SameLog, EnsurePeers, Or, RebuildPendingConfig, D.Halted;
  }

  lemma PersistRuns(n: NodeState, c: nat)
    requires !n.faulted && D.Mirror(n) && n.disk.budget >= 1 && n.commit <= c
    ensures var r := Persist(n, HardState(n.term, n.votedFor, c)); r == n.(disk := r.disk) && r.disk.budget == n.disk.budget - 1
  {
    hide D.SameLog;
  }

  lemma FollowRuns(n: NodeState, m: Message)
    requires Valid(n) && !n.faulted && D.Mirror(n) && n.disk.budget >= 1
    requires m.commit == MatchedIndex(m) == LastIndex(n) == n.commit + 1
    requires n.pendingConfig == if IsConfig(EntryAt(n, LastIndex(n))) then LastIndex(n) else 0
    ensures var r := FollowCommit(n, m);
      && !r.faulted && r.log == n.log && r.baseIndex == n.baseIndex && r.commit == LastIndex(n) && r.applied == n.applied && r.pendingConfig == 0
      && r.disk.budget == n.disk.budget - 1 && r.term == n.term
      && Voters(r.votersOld, r.votersNew) == Committed(Voters(n.votersOld, n.votersNew), EntryAt(n, LastIndex(n)))
  {
    hide D.Mirror, ApplyConfiguration, Persist;
    var c := LastIndex(n);
    D.MirrorIsSane(n);
    PersistRuns(n, c);
    var n1 := Persist(n, HardState(n.term, n.votedFor, c)).(commit := c);
    ApplyOne(n1, c);
    assert ApplyFrom(n1, c, c) == ApplyFrom(ApplyConfiguration(n1, c), c + 1, c);
  }

  lemma AppendHeard(n: NodeState, m: Message)
    requires Valid(n) && !n.faulted && D.Mirror(n) && NodeId(m.from) && n.term == m.term && m.hasEntry && n.disk.budget >= 2
    requires m.logIndex == LastIndex(n) == n.commit && m.commit == m.logIndex + 1 && m.logTerm == TermAt(n, m.logIndex)
    requires ValidNewEntry(n, m.entry) && n.pendingConfig == 0
    ensures var r := OnAppend(n, m);
      && !r.faulted && r.log == n.log + [m.entry] && r.baseIndex == n.baseIndex && r.commit == LastIndex(r) && r.applied == n.applied
      && r.pendingConfig == 0 && Voters(r.votersOld, r.votersNew) == Committed(Voters(n.votersOld, n.votersNew), m.entry)
      && r.disk.budget == n.disk.budget - 2 && r.term == n.term
  {
    hide D.Mirror, StoreEntry, FollowCommit, ValidNewEntry;
    var n1 := n.(state := Follower, leader := m.from, elapsed := 0);
    MirrorStays(n, n1);
    StoreRuns(n1, m.entry);
    FollowRuns(StoreEntry(n1, m.logIndex + 1, m.entry), m);
  }

  lemma MirrorStays(n: NodeState, n1: NodeState)
    requires D.Mirror(n) && n1 == n.(state := n1.state, leader := n1.leader, elapsed := n1.elapsed)
    ensures D.Mirror(n1)
  {
  }

  /** It runs on, with the entry in its log and committed. */
  lemma Heard(n: NodeState, m: Message)
    requires Hears(n, m)
    ensures var r := Step(n, m);
      && !r.faulted && D.Mirror(r) && r.log == n.log + [m.entry] && r.baseIndex == n.baseIndex && r.commit == LastIndex(r)
      && r.applied == n.applied && r.id == n.id && r.pendingConfig == 0 && r.disk.budget >= n.disk.budget - 3 && r.term == m.term
      && Voters(r.votersOld, r.votersNew) == Committed(Voters(n.votersOld, n.votersNew), m.entry)
  {
    hide D.Mirrored, AdoptTerm, OnAppend, D.Halted;
    AdoptRuns(n, m);
    AppendHeard(AdoptTerm(n, m), m);
    D.MirrorIsSane(n);
    D.StepKept(n, m);
  }

  /** What the leader of term one sends: a command, and after it a change to `mask`. */
  function Command(from: Id, to: Id): Message {
    Blank(Append, from, to, 1).(entry := ZERO_ENTRY.(term := 1, command := 5), hasEntry := true, commit := 1)
  }

  function Change(from: Id, to: Id, voters: nat, mask: nat): Message {
    Blank(Append, from, to, 1).(logIndex := 1, logTerm := 1, commit := 2, hasEntry := true,
                                entry := ZERO_ENTRY.(term := 1, kind := JointConfig, oldVoters := voters, newVoters := mask))
  }

  lemma FreshHears(id: Id, peers: seq<Id>, timeout: nat, from: Id, budget: nat)
    requires NodeId(id) && (forall p :: p in peers ==> NodeId(p)) && Distinct(id, peers) && NodeId(from) && budget >= 3
    ensures Hears(NewNode(id, peers, timeout, S.FRESH.(budget := budget)), Command(from, id))
  {
    hide MaskFrom;
  }

  lemma CompactRuns(n: NodeState, index: nat, state: seq<Byte>)
    requires Valid(n) && !n.faulted && D.Mirror(n) && n.disk.budget >= 2 && n.baseIndex < index
    ensures !Compact(n, index, state).faulted
  {
    hide D.SameLog;
  }

  lemma ChangeReads(n: NodeState, c: Message, m: Message, v: Voters)
    requires n.log == [ZERO_ENTRY, c.entry, m.entry] && n.baseIndex == 0 && n.commit == 2 && v.old' != 0 && v.new' == 0
    requires c == Command(c.from, c.to) && m == Change(m.from, m.to, v.old', m.entry.newVoters) && m.entry.newVoters != 0
    requires n.votersOld == v.old' && n.votersNew == m.entry.newVoters && n.pendingConfig == 0
    ensures ConfigOk(v, n) && !SafeCut(n, 1)
  {
    var log := n.log;
    assert Read(v, 0, log, 2, 0) == Replay(true, v, 0);
    assert Read(v, 0, log, 2, 1) == Replay(true, v, 0);
    assert FirstChange(0, log, 2, 2) == 2;
  }

  /**
   * Any node of any cluster stores and applies a command, then stores and commits a joint
   * configuration, and compacts at the command it has applied.  All is well until it is
   * restarted: it stops at once.
   */
  lemma CompactionStrands(id: Id, peers: seq<Id>, timeout: nat, from: Id, mask: nat) returns (n: NodeState)
    requires NodeId(id) && (forall p :: p in peers ==> NodeId(p)) && Distinct(id, peers) && NodeId(from) && mask != 0
    ensures var n0 := NewNode(id, peers, timeout, S.FRESH.(budget := 9));
      n == Step(ApplyEntries(Step(n0, Command(from, id))), Change(from, id, n0.votersOld, mask)) && !n.faulted && n.applied == 1 && n.commit == 2
    ensures var r := Compact(n, 1, []);
      && !r.faulted && D.Mirror(r) && 0 < |r.disk.wal.data|
      && var again := D.Rebuild(id, peers, n.timeout, r.disk); again.Some? && again.value.faulted
  {
    hide D.Mirrored, Step, Compact, D.Rebuild, SafeCut, ConfigOk, D.Halted, MaskFrom, NodeBit;
    var n0, c := NewNode(id, peers, timeout, S.FRESH.(budget := 9)), Command(from, id);
    var v, m := Voters(n0.votersOld, 0), Change(from, id, n0.votersOld, mask);
    FreshHears(id, peers, timeout, from, 9);
    MaskIsNotEmpty(peers, 0, NodeBit(id));
    Heard(n0, c);
    var n1 := Step(n0, c);
    D.AppliedKept(n1);
    var n2 := ApplyEntries(n1);
    Heard(n2, m);
    n := Step(n2, m);
    ChangeReads(n, c, m, v);
    CompactRuns(n, 1, []);
    D.CompactKept(n, 1, []);
    CompactRestarts(v, n, 1, [], peers);
  }
}
