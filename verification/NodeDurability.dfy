/**
 * What a node's store holds after every public call, for any configuration, with compaction and
 * snapshot installation, and with writes that may fail at any point.
 */
module NodeDurability {
  import opened Quorums
  import opened Bits
  import opened RaftTypes
  import opened NodeModel
  import W = RaftWal
  import S = StableStore
  import Store = RaftStore

  /** The log in memory and the log on disk agree above the base. */
  predicate SameLog(log: seq<Entry>, data: seq<Entry>) {
    0 < |log| == |data| && log[1..] == data[1..]
  }

  /** Disk holds term, vote, commit index, base and log of memory, and base, applied, commit and
      last index stand in that order.  A snapshot's index counts as committed without a
      hard-state record of its own. */
  predicate Mirrored(term: nat, votedFor: Id, commit: nat, applied: nat, base: nat, log: seq<Entry>, d: S.Disk) {
    && d.wal.hard.term == term && d.wal.hard.votedFor == votedFor
    && commit == Max(d.wal.hard.commit, d.image.lastIndex)
    && base == d.wal.base == d.image.lastIndex && base <= applied <= commit < base + |log|
    && SameLog(log, d.wal.data) && log[0].term == d.image.lastTerm && (d.image.lastIndex == 0 ==> d.image.lastTerm == 0)
  }

  predicate Mirror(n: NodeState) {
    Mirrored(n.term, n.votedFor, n.commit, n.applied, n.baseIndex, n.log, n.disk)
  }

  /** What a disk still holds when a node has stopped in the middle of a call: the log reaches
      the commit index, and a snapshot not yet fenced contradicts nothing committed. */
  predicate Sound(d: S.Disk) {
    && 0 < |d.wal.data| && d.wal.base <= d.image.lastIndex && d.wal.hard.commit <= W.LastIndex(d.wal)
    && (d.wal.base < d.image.lastIndex <= W.LastIndex(d.wal) && d.wal.data[d.image.lastIndex - d.wal.base].term != d.image.lastTerm ==>
          d.wal.hard.commit <= d.image.lastIndex)
    && (d.image.lastIndex == 0 ==> d.image.lastTerm == 0)
  }

  /** A snapshot that ends at index `i` with an entry of term `t` can be fenced without losing
      anything committed. */
  predicate Recalls(d: S.Disk, i: nat, t: nat) {
    d.image.lastIndex <= i ==> W.TermAt(d.wal, i) == Some(t) || d.wal.hard.commit <= i
  }

  function TermIn(base: nat, log: seq<Entry>, i: nat): nat {
    if base <= i < base + |log| then log[i - base].term else 0
  }

  predicate Retained(base: nat, log: seq<Entry>, upTo: nat, d: S.Disk) {
    forall i :: base < i <= upTo && i < base + |log| ==> Recalls(d, i, TermIn(base, log, i))
  }

  /** A stopped node: it says nothing, it can be rebuilt from its disk, and whatever it may still
      compact is safe to compact. */
  predicate Halted(n: NodeState) {
    && n.state == Follower && n.outbound == [] && Sound(n.disk)
    && Retained(n.baseIndex, n.log, Max(n.applied, n.commit), n.disk)
  }

  /** A running node is mirrored; a node stops only when a write has failed. */
  predicate Kept(n: NodeState) {
    if n.faulted then n.disk.budget == 0 && Halted(n) else Mirror(n)
  }

  lemma MirrorIsSane(n: NodeState)
    requires Valid(n) && Mirror(n)
    ensures Sane(n) && n.commit <= LastIndex(n)
  {
  }

  // ----- Writes -----

  lemma SameRetains(base: nat, log: seq<Entry>, upTo: nat, d: S.Disk)
    requires SameLog(log, d.wal.data) && d.wal.base == base
    ensures Retained(base, log, upTo, d)
  {
    forall i | base < i <= upTo && i < base + |log| ensures Recalls(d, i, TermIn(base, log, i)) { SameTerms(log, d.wal.data, i - base); }
  }

  /** No store guard refuses hard state of a higher term, or a vote in an undecided term. */
  lemma PersistKept(n: NodeState, h: HardState)
    requires !n.faulted && Mirror(n) && n.commit <= h.commit < n.baseIndex + |n.log|
    requires h.term > n.term || (h.term == n.term && (n.votedFor == 0 || h.votedFor == n.votedFor))
    ensures var n1 := Persist(n, h);
      if n1.faulted then Kept(n1)
      else n1 == n.(disk := n1.disk) && Mirrored(h.term, h.votedFor, h.commit, n.applied, n.baseIndex, n.log, n1.disk)
  {
    SameSize(n.log, n.disk.wal.data);
    hide SameLog, Retained;
    SameRetains(n.baseIndex, n.log, Max(n.applied, n.commit), Persist(n, h).disk);
  }

  /** Writing never depends on the commit index in memory. */
  lemma PersistAhead(n: NodeState, h: HardState, c: nat)
    ensures Persist(n.(commit := c), h) == Persist(n, h).(commit := c) && Persist(n, h).commit == n.commit
  {
  }

  lemma Extends(log: seq<Entry>, data: seq<Entry>, k: nat, e: Entry)
    requires SameLog(log, data) && 0 < k <= |log|
    ensures SameLog(log[..k] + [e], data[..k] + [e])
  {
    var x, y := log[..k] + [e], data[..k] + [e];
    assert x[1..] == log[1..][..k - 1] + [e] && y[1..] == data[1..][..k - 1] + [e];
  }

  /** Appending after `k` entries replaces whatever followed them, in memory as on disk. */
  lemma AppendKept(n: NodeState, cut: NodeState, k: nat, e: Entry)
    requires !n.faulted && Mirror(n) && 0 < k <= |n.log| && n.commit <= n.baseIndex + k
    requires cut.disk == n.disk && !cut.faulted && cut.log == n.log[..k] && cut.baseIndex == n.baseIndex
    ensures var n1 := Settle(cut, S.Append(cut.disk, n.baseIndex + k, e));
      if n1.faulted then Kept(n1)
      else n1 == cut.(disk := n1.disk) && Mirrored(n.term, n.votedFor, n.commit, n.applied, n.baseIndex, n.log[..k] + [e], n1.disk)
  {
    Extends(n.log, n.disk.wal.data, k, e);
    hide Retained;
    var d := Settle(cut, S.Append(cut.disk, n.baseIndex + k, e)).disk;
    CutRetains(n.baseIndex, n.log, n.disk.wal.data, k, Max(cut.applied, cut.commit), d);
  }

  /** What is left in memory of a truncated log is on disk, whether the truncation got there or not. */
  lemma CutRetains(base: nat, log: seq<Entry>, data: seq<Entry>, k: nat, upTo: nat, d: S.Disk)
    requires SameLog(log, data) && k <= |log| && d.wal.base == base && k <= |d.wal.data| && d.wal.data[..k] == data[..k]
    ensures Retained(base, log[..k], upTo, d)
  {
    forall i | base < i <= upTo && i < base + k ensures Recalls(d, i, TermIn(base, log[..k], i)) {
      SameTerms(log, data, i - base);
      assert d.wal.data[..k][i - base] == data[..k][i - base];
    }
  }

  // ----- Elections -----

  lemma AppendLocalKept(n: NodeState, e: Entry)
    requires Valid(n) && !n.faulted && Mirror(n)
    ensures Kept(AppendLocal(n, e))
  {
    hide Mirrored, ApplyCommittedConfigurations, QuorumMask, Persist, S.Append, NodeBit;
    MirrorIsSane(n);
    assert n.log[..|n.log|] == n.log;
    AppendKept(n, n, |n.log|, e);
    var n1 := Settle(n, S.Append(n.disk, LastIndex(n) + 1, e));
    if !n1.faulted {
      var n2 := n1.(log := n1.log + [e]);
      if QuorumMask(n2, NodeBit(n2.id)) {
        var h := HardState(n2.term, n2.votedFor, LastIndex(n2));
        PersistKept(n2, h);
        PersistAhead(n2, h, LastIndex(n2));
      }
    }
  }

  lemma BecomeLeaderKept(n: NodeState)
    requires Valid(n) && !n.faulted && Mirror(n)
    ensures Kept(BecomeLeader(n))
  {
    hide Mirrored, AppendLocal, BroadcastFrom, ResetPeersFrom;
    AppendLocalKept(n.(state := Leader, leader := n.id, elapsed := 0), ZERO_ENTRY.(term := n.term, kind := Noop));
  }

  lemma StartElectionKept(n: NodeState)
    requires Valid(n) && !n.faulted && Mirror(n)
    ensures Kept(StartElection(n))
  {
    hide Mirrored, Persist, BecomeLeader, QuorumMask, AskAll, NodeBit;
    MirrorIsSane(n);
    var h := HardState(n.term + 1, n.id, n.commit);
    PersistKept(n, h);
    var n1 := Persist(n, h);
    if !n1.faulted {
      var n2 := n1.(state := Candidate, term := n.term + 1, votedFor := n.id, elapsed := 0, voteMask := NodeBit(n.id), preVoteMask := 0);
      var n3 := AskAll(n2, RequestVote, n2.term);
      if QuorumMask(n3, n3.voteMask) { BecomeLeaderKept(n3); }
    }
  }

  lemma StartPreVoteKept(n: NodeState)
    requires Valid(n) && !n.faulted && Mirror(n)
    ensures Kept(StartPreVote(n))
  {
    hide Mirrored, StartElection, QuorumMask, AskAll, NodeBit;
    var n1 := n.(elapsed := 0, preVoteTerm := n.term + 1, leader := 0, preVoteMask := NodeBit(n.id));
    var n2 := AskAll(n1, PreVote, n1.preVoteTerm);
    if QuorumMask(n2, n2.preVoteMask) { StartElectionKept(n2); }
  }

  lemma TickKept(n: NodeState)
    requires Valid(n) && Kept(n)
    ensures Kept(Tick(n))
  {
    hide Mirrored, StartPreVote, BroadcastAppend;
    if !n.faulted && n.state != Leader && n.elapsed + 1 >= n.timeout { StartPreVoteKept(n.(elapsed := n.elapsed + 1)); }
  }

  lemma OnVoteKept(n: NodeState, m: Message)
    requires Valid(n) && !n.faulted && Mirror(n) && NodeId(m.from)
    ensures Kept(OnVote(n, m))
  {
    hide Mirrored, Persist, IsVoter, AsUpToDate;
    MirrorIsSane(n);
    if GrantsVote(n, m) { PersistKept(n, HardState(n.term, m.from, n.commit)); }
  }

  lemma VotesKept(n: NodeState, m: Message)
    requires Valid(n) && !n.faulted && Mirror(n) && NodeId(m.from)
    ensures Kept(OnPreVote(n, m)) && Kept(OnPreVoteResponse(n, m)) && Kept(OnVoteResponse(n, m))
  {
    hide Mirrored, StartElection, BecomeLeader, QuorumMask, IsVoter, AsUpToDate, Or, NodeBit;
    var a, b := n.(preVoteMask := Or(n.preVoteMask, NodeBit(m.from))), n.(voteMask := Or(n.voteMask, NodeBit(m.from)));
    StartElectionKept(a);
    BecomeLeaderKept(b);
  }

  lemma AdoptTermKept(n: NodeState, m: Message)
    requires Valid(n) && !n.faulted && Mirror(n)
    ensures Kept(AdoptTerm(n, m))
    ensures var r := AdoptTerm(n, m); r.faulted || (r.commit == n.commit && r.log == n.log && r.baseIndex == n.baseIndex && r.baseTerm == n.baseTerm)
  {
    hide Mirrored, Persist;
    MirrorIsSane(n);
    if m.term > n.term { PersistKept(n, HardState(m.term, 0, n.commit)); }
  }

  // ----- Following -----

  /** The message asks for a committed entry to be dropped. */
  predicate Overwrites(n: NodeState, m: Message) {
    m.hasEntry && m.logIndex + 1 < n.commit && InLog(n, m.logIndex + 1) && TermAt(n, m.logIndex + 1) != m.entry.term
  }

  lemma StoreEntryKept(n: NodeState, at: nat, e: Entry)
    requires Valid(n) && !n.faulted && Mirror(n) && n.baseIndex < at <= LastIndex(n) + 1
    requires InLog(n, at) && TermAt(n, at) != e.term ==> n.commit <= at
    ensures var r := StoreEntry(n, at, e); Kept(r) && (!r.faulted ==> at <= LastIndex(r))
  {
    hide Mirrored, RebuildPendingConfig, S.Append, EnsurePeers;
    MirrorIsSane(n);
    var k := at - n.baseIndex;
    var n1 := if InLog(n, at) && TermAt(n, at) != e.term then RebuildPendingConfig(n.(log := n.log[..k])) else n;
    if at == LastIndex(n1) + 1 {
      assert n1.log == n.log[..k];
      AppendKept(n, n1, k, e);
    }
  }

  lemma FollowCommitKept(n: NodeState, m: Message)
    requires Valid(n) && !n.faulted && Mirror(n) && MatchedIndex(m) <= LastIndex(n)
    ensures Kept(FollowCommit(n, m))
  {
    hide Mirrored, Persist, ApplyCommittedConfigurations;
    MirrorIsSane(n);
    if m.commit > n.commit && MatchedIndex(m) > n.commit {
      PersistKept(n, HardState(n.term, n.votedFor, Min(m.commit, MatchedIndex(m))));
    }
  }

  lemma OnAppendKept(n: NodeState, m: Message)
    requires Valid(n) && !n.faulted && Mirror(n) && NodeId(m.from) && (RejectsAppend(n, m) || !Overwrites(n, m))
    ensures Kept(OnAppend(n, m))
  {
    hide Mirrored, StoreEntry, FollowCommit, ValidNewEntry;
    MirrorIsSane(n);
    if !RejectsAppend(n, m) {
      var n1 := n.(state := Follower, leader := m.from, elapsed := 0);
      if m.hasEntry { StoreEntryKept(n1, m.logIndex + 1, m.entry); }
      var n2 := if m.hasEntry then StoreEntry(n1, m.logIndex + 1, m.entry) else n1;
      if !n2.faulted { FollowCommitKept(n2, m); }
    }
  }

  // ----- Leading -----

  lemma CommitAtKept(n: NodeState, index: nat)
    requires Valid(n) && !n.faulted && Mirror(n) && n.commit < index <= LastIndex(n)
    ensures Kept(CommitAt(n, index))
  {
    hide Mirrored, Persist, ApplyCommittedConfigurations, BroadcastAppend;
    PersistKept(n, HardState(n.term, n.votedFor, index));
  }

  lemma ConfirmKept(n: NodeState, peer: Id)
    requires Valid(n) && !n.faulted && Mirror(n)
    ensures Kept(Confirm(n, peer))
  {
    hide Mirrored, CommitAt, FindCommittable, AppendToContext;
    var found := FindCommittable(n, LastIndex(n));
    if found.Some? { CommitAtKept(n, found.value); }
  }

  lemma OnAppendResponseKept(n: NodeState, m: Message)
    requires Valid(n) && !n.faulted && Mirror(n) && NodeId(m.from)
    ensures Kept(OnAppendResponse(n, m))
  {
    hide Mirrored, CountReadAck, Confirm, AppendToContext;
    var n1 := CountReadAck(n, m);
    ConfirmKept(RecordMatch(n1, m.from, m.acked), m.from);
  }

  // ----- Snapshots -----

  lemma Drops(log: seq<Entry>, data: seq<Entry>, k: nat)
    requires SameLog(log, data) && 0 < k < |log|
    ensures SameLog(log[k..], data[k..])
  {
    forall i | k <= i < |log| ensures log[i] == data[i] { assert log[1..][i - 1] == data[1..][i - 1]; }
  }

  lemma SameTerms(log: seq<Entry>, data: seq<Entry>, k: nat)
    requires SameLog(log, data) && 0 < k < |log|
    ensures log[k].term == data[k].term
  {
    assert log[1..][k - 1] == data[1..][k - 1];
  }

  /** The disk after a snapshot has been published and fenced. */
  predicate Fenced(d: S.Disk, s: Snapshot, wal: Option<W.Wal>) {
    wal.Some? && d.wal == wal.value && d.image == s
  }

  /** Publishing and fencing a snapshot on a disk in order fails only on a write. */
  lemma FenceWrites(d: S.Disk, s: Snapshot)
    requires Sound(d) && d.image.lastIndex == d.wal.base < s.lastIndex
    ensures var saved := S.SaveSnapshot(d, s); var fenced := S.CompactLog(saved.disk, s.lastIndex);
      if !saved.ok then saved.disk.budget == 0
      else if !fenced.ok then fenced.disk.budget == 0
      else Fenced(fenced.disk, s, S.Fence(d.wal, s.lastIndex, s.lastTerm))
  {
  }

  /** However publishing and fencing ends, it leaves a sound disk. */
  lemma FenceIsSound(d: S.Disk, s: Snapshot)
    requires Sound(d) && Recalls(d, s.lastIndex, s.lastTerm) && 0 < s.lastIndex
    ensures var saved := S.SaveSnapshot(d, s);
      Sound(saved.disk) && (saved.ok ==> Sound(S.CompactLog(saved.disk, s.lastIndex).disk))
  {
  }

  lemma FencedTerms(w: W.Wal, s: Snapshot, i: nat, t: nat)
    requires W.TermAt(w, s.lastIndex) == Some(s.lastTerm) || w.hard.commit <= s.lastIndex
    requires W.TermAt(w, i) == Some(t) || w.hard.commit <= i
    requires s.lastIndex <= i && (i == s.lastIndex ==> t == s.lastTerm || w.hard.commit <= i)
    ensures var f := S.Fence(w, s.lastIndex, s.lastTerm);
      f.Some? ==> f.value.hard == w.hard && (W.TermAt(f.value, i) == Some(t) || w.hard.commit <= i)
  {
  }

  /** It forgets no entry above the snapshot that it would have to remember. */
  lemma FenceRecalls(d: S.Disk, s: Snapshot, i: nat, t: nat)
    requires Sound(d) && Recalls(d, s.lastIndex, s.lastTerm) && Recalls(d, i, t)
    requires i == s.lastIndex ==> t == s.lastTerm || d.wal.hard.commit <= i
    ensures var saved := S.SaveSnapshot(d, s);
      Recalls(saved.disk, i, t) && (saved.ok ==> Recalls(S.CompactLog(saved.disk, s.lastIndex).disk, i, t))
  {
    hide S.Fence, W.TermAt;
    if d.image.lastIndex <= s.lastIndex <= i { FencedTerms(d.wal, s, i, t); }
  }

  lemma FenceRetains(base: nat, log: seq<Entry>, upTo: nat, d: S.Disk, s: Snapshot)
    requires Sound(d) && Recalls(d, s.lastIndex, s.lastTerm) && Retained(base, log, upTo, d)
    requires base < s.lastIndex < base + |log| ==> log[s.lastIndex - base].term == s.lastTerm || d.wal.hard.commit <= s.lastIndex
    ensures var saved := S.SaveSnapshot(d, s);
      Retained(base, log, upTo, saved.disk) && (saved.ok ==> Retained(base, log, upTo, S.CompactLog(saved.disk, s.lastIndex).disk))
  {
    hide Sound, Recalls, S.SaveSnapshot, S.CompactLog;
    forall i | base < i <= upTo && i < base + |log|
      ensures Recalls(S.SaveSnapshot(d, s).disk, i, TermIn(base, log, i))
      ensures S.SaveSnapshot(d, s).ok ==> Recalls(S.CompactLog(S.SaveSnapshot(d, s).disk, s.lastIndex).disk, i, TermIn(base, log, i))
    {
      FenceRecalls(d, s, i, TermIn(base, log, i));
    }
  }

  /** Cutting a compacted prefix off the log in memory. */
  lemma RetainedAbove(base: nat, log: seq<Entry>, upTo: nat, d: S.Disk, k: nat)
    requires Retained(base, log, upTo, d) && k < |log|
    ensures Retained(base + k, log[k..], upTo, d)
  {
    var base', log' := base + k, log[k..];
    forall i | base' < i <= upTo && i < base' + |log'| ensures Recalls(d, i, TermIn(base', log', i)) {
      assert TermIn(base', log', i) == TermIn(base, log, i);
    }
  }

  lemma CompactKept(n: NodeState, index: nat, state: seq<Byte>)
    requires Valid(n) && !n.faulted && Mirror(n)
    ensures Kept(Compact(n, index, state))
  {
    hide S.SaveSnapshot, S.CompactLog, SameLog, Sound, Retained, Recalls;
    if n.baseIndex < index <= n.applied && InLog(n, index) {
      var k, s := index - n.baseIndex, Snapshot(index, TermAt(n, index), state, n.votersOld, n.votersNew);
      SameSize(n.log, n.disk.wal.data);
      SameTerms(n.log, n.disk.wal.data, k);
      Drops(n.log, n.disk.wal.data, k);
      SoundWhileRunning(n);
      SameRetains(n.baseIndex, n.log, Max(n.applied, n.commit), n.disk);
      TermOnDisk(n, index);
      FenceWrites(n.disk, s);
      FenceIsSound(n.disk, s);
      FenceRetains(n.baseIndex, n.log, Max(n.applied, n.commit), n.disk, s);
    }
  }

  lemma TermOnDisk(n: NodeState, index: nat)
    requires Mirror(n) && n.baseIndex < index && InLog(n, index)
    ensures W.TermAt(n.disk.wal, index) == Some(TermAt(n, index)) && Recalls(n.disk, index, TermAt(n, index))
  {
    SameTerms(n.log, n.disk.wal.data, index - n.baseIndex);
  }

  /** A stopped node may still be asked to compact, and its disk stays one to rebuild from. */
  lemma CompactHalted(n: NodeState, index: nat, state: seq<Byte>)
    requires Valid(n) && n.faulted && Halted(n)
    ensures var r := Compact(n, index, state); r.faulted && Halted(r)
  {
    hide S.SaveSnapshot, S.CompactLog, Sound, Retained, Recalls;
    if n.baseIndex < index <= n.applied && InLog(n, index) {
      var k, s, upTo := index - n.baseIndex, Snapshot(index, TermAt(n, index), state, n.votersOld, n.votersNew), Max(n.applied, n.commit);
      RetainsAt(n, index);
      FenceIsSound(n.disk, s);
      FenceRetains(n.baseIndex, n.log, upTo, n.disk, s);
      if S.SaveSnapshot(n.disk, s).ok { RetainedAbove(n.baseIndex, n.log, upTo, S.CompactLog(S.SaveSnapshot(n.disk, s).disk, index).disk, k); }
    }
  }

  lemma RetainsAt(n: NodeState, index: nat)
    requires Halted(n) && n.baseIndex < index <= Max(n.applied, n.commit) && InLog(n, index)
    ensures Recalls(n.disk, index, TermAt(n, index))
  {
    assert TermIn(n.baseIndex, n.log, index) == TermAt(n, index);
  }

  lemma SameSize(log: seq<Entry>, data: seq<Entry>)
    requires SameLog(log, data)
    ensures 0 < |log| == |data|
  {
  }

  /** The snapshot disagrees with the log below the commit index, so that taking it would leave
      the commit index beyond the end of the log. */
  predicate Contradicts(n: NodeState, s: Snapshot) {
    n.baseIndex < s.lastIndex < n.commit && !(InLog(n, s.lastIndex) && TermAt(n, s.lastIndex) == s.lastTerm)
  }

  lemma TakeSnapshotKept(n: NodeState, s: Snapshot)
    requires Valid(n) && !n.faulted && Mirror(n) && n.baseIndex < s.lastIndex && !Contradicts(n, s)
    ensures Kept(TakeSnapshot(n, s))
  {
    hide S.SaveSnapshot, S.CompactLog, SameLog, Sound, Retained, Recalls;
    SameSize(n.log, n.disk.wal.data);
    var k := s.lastIndex - n.baseIndex;
    if InLog(n, s.lastIndex) {
      TermOnDisk(n, s.lastIndex);
      Drops(n.log, n.disk.wal.data, k);
    }
    SoundWhileRunning(n);
    SameRetains(n.baseIndex, n.log, Max(n.applied, n.commit), n.disk);
    NewIsRecalled(n, s);
    FenceWrites(n.disk, s);
    FenceIsSound(n.disk, s);
    FenceRetains(n.baseIndex, n.log, Max(n.applied, n.commit), n.disk, s);
    SingleSame(ZERO_ENTRY.(term := s.lastTerm));
  }

  lemma NewIsRecalled(n: NodeState, s: Snapshot)
    requires Mirror(n) && n.baseIndex < s.lastIndex && !Contradicts(n, s)
    requires InLog(n, s.lastIndex) ==> W.TermAt(n.disk.wal, s.lastIndex) == Some(TermAt(n, s.lastIndex))
    ensures Recalls(n.disk, s.lastIndex, s.lastTerm)
    ensures InLog(n, s.lastIndex) ==> TermAt(n, s.lastIndex) == s.lastTerm || n.disk.wal.hard.commit <= s.lastIndex
  {
  }

  lemma SingleSame(e: Entry)
    ensures SameLog([e], [e])
  {
  }

  lemma OnInstallSnapshotKept(n: NodeState, m: Message)
    requires Valid(n) && !n.faulted && Mirror(n) && (RejectsSnapshot(n, m) || !Contradicts(n, m.snapshot))
    ensures Kept(OnInstallSnapshot(n, m))
  {
    hide Mirrored, TakeSnapshot;
    if !RejectsSnapshot(n, m) && m.snapshot.lastIndex > n.baseIndex { TakeSnapshotKept(n, m.snapshot); }
  }

  // ----- Every public call -----

  /** The message does not contradict what the node has committed. */
  predicate Harmless(n: NodeState, m: Message)
    requires 0 < |n.log|
  {
    && (m.kind == Append ==> m.term < n.term || RejectsAppend(n, m) || !Overwrites(n, m))
    && (m.kind == InstallSnapshot ==> m.term < n.term || RejectsSnapshot(n, m) || !Contradicts(n, m.snapshot))
  }

  lemma DispatchKept(n: NodeState, m: Message)
    requires Valid(n) && !n.faulted && Mirror(n) && NodeId(m.from)
    requires m.kind == Append ==> RejectsAppend(n, m) || !Overwrites(n, m)
    requires m.kind == InstallSnapshot ==> RejectsSnapshot(n, m) || !Contradicts(n, m.snapshot)
    ensures Kept(Dispatch(n, m))
  {
    hide Mirrored, OnPreVote, OnPreVoteResponse, OnVote, OnVoteResponse, OnAppend, OnAppendResponse, OnInstallSnapshot, AppendToContext,
      StartElection, IsVoter, RejectsAppend, RejectsSnapshot;
    match m.kind {
      case PreVote => VotesKept(n, m);
      case PreVoteResponse => VotesKept(n, m);
      case RequestVote => OnVoteKept(n, m);
      case RequestVoteResponse => VotesKept(n, m);
      case Append => OnAppendKept(n, m);
      case AppendResponse => OnAppendResponseKept(n, m);
      case InstallSnapshot => OnInstallSnapshotKept(n, m);
      case InstallSnapshotResponse =>
      case TimeoutNow => StartElectionKept(n);
    }
  }

  lemma StepKept(n: NodeState, m: Message)
    requires Valid(n) && Kept(n) && NodeId(m.from) && (!n.faulted ==> Harmless(n, m))
    ensures Kept(Step(n, m))
  {
    hide Mirrored, AdoptTerm, Dispatch, ValidNewEntry, Halted;
    if !n.faulted {
      AdoptTermKept(n, m);
      var n1 := AdoptTerm(n, m);
      if !n1.faulted {
        SameVerdict(n, m);
        DispatchKept(n1, m);
      }
    }
  }

  /** Adopting a term decides neither whether a message is rejected nor what it contradicts. */
  lemma SameVerdict(n: NodeState, m: Message)
    requires Valid(n) && !AdoptTerm(n, m).faulted && Harmless(n, m)
    ensures var n1 := AdoptTerm(n, m);
      && (m.kind == Append ==> RejectsAppend(n1, m) || !Overwrites(n1, m))
      && (m.kind == InstallSnapshot ==> RejectsSnapshot(n1, m) || !Contradicts(n1, m.snapshot))
  {
    hide AdoptTerm;
    AdoptShape(n, m);
  }

  /** The public calls. */
  datatype Call =
    | TickCall
    | StepCall(m: Message)
    | ProposeCall(command: nat)
    | RequestCall(op: CommandOp, client: nat, request: nat, key: nat, value: nat)
    | JointCall(ids: seq<Id>)
    | FinalCall
    | ReadCall(context: nat)
    | TransferCall(target: Id)
    | DrainCall
    | ApplyCall
    | CompactCall(index: nat, state: seq<Byte>)

  predicate Proper(call: Call) {
    match call
    case StepCall(m) => NodeId(m.from)
    case JointCall(ids) => forall id :: id in ids ==> NodeId(id)
    case TransferCall(target) => NodeId(target)
    case _ => true
  }

  /** The call does not deliver a message that contradicts what the node has committed. */
  predicate Consistent(n: NodeState, call: Call)
    requires 0 < |n.log|
  {
    call.StepCall? && !n.faulted ==> Harmless(n, call.m)
  }

  function Perform(n: NodeState, call: Call): (r: NodeState)
    requires Valid(n) && Proper(call)
    ensures Valid(r)
  {
    match call
    case TickCall => Tick(n)
    case StepCall(m) => Step(n, m)
    case ProposeCall(command) => Propose(n, command)
    case RequestCall(op, client, request, key, value) => ProposeRequest(n, op, client, request, key, value)
    case JointCall(ids) => ProposeJoint(n, ids)
    case FinalCall => ProposeFinal(n)
    case ReadCall(context) => StartReadIndex(n, context)
    case TransferCall(target) => TransferLeadership(n, target)
    case DrainCall => Drain(n)
    case ApplyCall => ApplyEntries(n)
    case CompactCall(index, state) => Compact(n, index, state)
  }

  lemma ProposeEntryKept(n: NodeState, e: Entry)
    requires Valid(n) && !n.faulted && Mirror(n)
    ensures Kept(ProposeEntry(n, e))
  {
    hide Mirrored, AppendLocal, BroadcastFrom;
    AppendLocalKept(n, e);
  }

  lemma ConfigurationsKept(n: NodeState, ids: seq<Id>)
    requires Valid(n) && !n.faulted && Mirror(n) && forall id :: id in ids ==> NodeId(id)
    ensures Kept(ProposeJoint(n, ids)) && Kept(ProposeFinal(n))
  {
    hide Mirrored, AppendLocal, BroadcastFrom, EnsurePeers, VoterMask;
    AppendLocalKept(n, ZERO_ENTRY.(term := n.term, kind := FinalConfig, oldVoters := n.votersNew));
    if VoterMask(ids).Some? {
      var mask := VoterMask(ids).value;
      AppendLocalKept(EnsurePeers(n, mask), ZERO_ENTRY.(term := n.term, kind := JointConfig, oldVoters := n.votersOld, newVoters := mask));
    }
  }

  lemma AppliedKept(n: NodeState)
    requires Valid(n) && !n.faulted && Mirror(n)
    ensures Kept(ApplyEntries(n))
  {
    hide SameLog;
  }

  /** Every public call keeps a running node mirrored, and stops it only on a failed write: no
      guard of the store ever fires. */
  lemma CallKept(n: NodeState, call: Call)
    requires Valid(n) && !n.faulted && Mirror(n) && Proper(call) && Consistent(n, call)
    ensures Kept(Perform(n, call))
  {
    hide Mirrored, Halted, Tick, Step, ProposeEntry, ProposeJoint, ProposeFinal, AppendAllFrom, OpenBarrier, AppendToContext, Compact, IsVoter,
      QuorumMask, ApplyEntries;
    match call {
      case TickCall => TickKept(n);
      case StepCall(m) => StepKept(n, m);
      case ProposeCall(command) =>
        if CanPropose(n) { ProposeEntryKept(n, ZERO_ENTRY.(term := n.term, command := command)); }
      case RequestCall(op, client, request, key, value) =>
        if CanPropose(n) {
          ProposeEntryKept(n, ZERO_ENTRY.(term := n.term, operation := op, clientId := client, requestId := request, key := key, value := value));
        }
      case JointCall(ids) => ConfigurationsKept(n, ids);
      case FinalCall => ConfigurationsKept(n, []);
      case ReadCall(context) => OpenBarrierShape(n, context);
      case TransferCall(target) =>
      case DrainCall =>
      case ApplyCall => AppliedKept(n);
      case CompactCall(index, state) => CompactKept(n, index, state);
    }
  }

  /** A stopped node stays stopped and sends nothing, whatever it is asked.  The one call that can
      still write is a compaction, and what that writes leaves the disk fit to rebuild from. */
  lemma CallHalted(n: NodeState, call: Call)
    requires Valid(n) && n.faulted && Halted(n) && Proper(call)
    ensures var r := Perform(n, call); r.faulted && Halted(r) && (r.disk == n.disk || call.CompactCall?)
  {
    hide Sound, Retained, Compact, ApplyEntries;
    match call {
      case JointCall(ids) => StoppedProposes(n, ids);
      case FinalCall => StoppedProposes(n, []);
      case ApplyCall => AppliedHalted(n);
      case CompactCall(index, state) => CompactHalted(n, index, state);
      case _ => StoppedIdles(n, call);
    }
  }

  lemma AppliedHalted(n: NodeState)
    requires Valid(n) && n.faulted && Halted(n)
    ensures var r := ApplyEntries(n); r.faulted && Halted(r) && r.disk == n.disk
  {
    hide Sound, Recalls;
  }

  lemma StoppedIdles(n: NodeState, call: Call)
    requires Valid(n) && n.faulted && n.state == Follower && n.outbound == [] && Proper(call)
    requires !call.ApplyCall? && !call.CompactCall? && !call.JointCall? && !call.FinalCall?
    ensures Perform(n, call) == n
  {
    hide StartPreVote, BroadcastFrom, Dispatch, AdoptTerm, IsVoter, ProposeEntry, AppendToContext, QuorumMask;
  }

  lemma StoppedProposes(n: NodeState, ids: seq<Id>)
    requires Valid(n) && n.faulted && forall id :: id in ids ==> NodeId(id)
    ensures ProposeJoint(n, ids) == n && ProposeFinal(n) == n
  {
  }

  lemma OpenBarrierShape(n: NodeState, context: nat)
    requires Valid(n)
    ensures var r := OpenBarrier(n, context);
      r == n.(readContext := r.readContext, readAckMask := r.readAckMask, readReady := r.readReady, readIndex := r.readIndex)
  {
  }

  // ----- Restarts -----

  /** The node a restart builds from what its disk holds, unless the disk cannot be opened. */
  function Rebuild(id: Id, peers: seq<Id>, timeout: nat, d: S.Disk): Option<NodeState>
    requires 0 < |d.wal.data| && NodeId(id) && (forall p :: p in peers ==> NodeId(p)) && Distinct(id, peers)
  {
    var o := Store.Open(d.image, d.wal);
    if o.None? then None
    else
      var d', r := d.(wal := o.value.wal, pending := NO_SNAPSHOT), o.value.recovery;
      if r.snapshot.lastIndex != 0 then Some(RecoveredNodeWithSnapshot(id, peers, timeout, d', r.hard, r.snapshot, r.suffix))
      else Some(RecoveredNode(id, peers, timeout, d', r.hard, [ZERO_ENTRY] + r.suffix))
  }

  /** The rebuilt node before its configuration is restored. */
  lemma RecoveredFields(id: Id, peers: seq<Id>, timeout: nat, d: S.Disk, hard: HardState, log: seq<Entry>)
    requires NodeId(id) && (forall p :: p in peers ==> NodeId(p)) && Distinct(id, peers) && 0 < |log|
    ensures var r := RecoveredNode(id, peers, timeout, d, hard, log);
      && r.term == hard.term && r.votedFor == hard.votedFor && r.commit == hard.commit && r.applied == 0
      && r.baseIndex == 0 && r.log == log && r.disk == d && r.state == Follower && r.outbound == []
  {
    hide ReplayTo, RestoredPeers, MaskFrom;
  }

  lemma RecoveredSnapshotFields(id: Id, peers: seq<Id>, timeout: nat, d: S.Disk, hard: HardState, s: Snapshot, suffix: seq<Entry>)
    requires NodeId(id) && (forall p :: p in peers ==> NodeId(p)) && Distinct(id, peers) && s.oldVoters != 0
    ensures var r := RecoveredNodeWithSnapshot(id, peers, timeout, d, hard, s, suffix);
      && r.term == hard.term && r.votedFor == hard.votedFor && r.commit == Max(hard.commit, s.lastIndex) && r.applied == s.lastIndex
      && r.baseIndex == s.lastIndex && r.log == [ZERO_ENTRY.(term := s.lastTerm)] + suffix && r.disk == d
      && r.state == Follower && r.outbound == []
  {
    hide ReplayTo, RestoredPeers, MaskFrom, EnsurePeers, Or;
  }

  /** The snapshot lies within the log, or there is none. */
  predicate Openable(d: S.Disk) {
    Sound(d) && d.image.lastIndex <= W.LastIndex(d.wal)
  }

  /** The snapshot, if there is one, names no voters. */
  predicate Voterless(d: S.Disk) {
    d.image.lastIndex != 0 && d.image.oldVoters == 0
  }

  /**
   * A disk that a node has left behind, stopped or not, can be opened whenever its snapshot lies
   * within its log.  The node rebuilt from it is mirrored by that disk, running or not, unless
   * the snapshot names no voters: then it has stopped.
   */
  lemma RebuildMirrors(id: Id, peers: seq<Id>, timeout: nat, d: S.Disk)
    requires NodeId(id) && (forall p :: p in peers ==> NodeId(p)) && Distinct(id, peers)
    requires Openable(d)
    ensures var r := Rebuild(id, peers, timeout, d);
      && Store.Open(d.image, d.wal).Some? && r.Some? && r.value.term == d.wal.hard.term && r.value.votedFor == d.wal.hard.votedFor
      && r.value.disk.image == d.image && r.value.disk.wal == Store.Open(d.image, d.wal).value.wal
      && (r.value.faulted ==> Halted(r.value))
      && if Voterless(d) then r.value.faulted
         else Mirror(r.value) && r.value.commit == Max(d.wal.hard.commit, d.image.lastIndex)
  {
    hide RecoveredNode, RecoveredNodeWithSnapshot, Retained;
    Store.Recovers(d.image, d.wal);
    var o := Store.Open(d.image, d.wal).value;
    var d', r := d.(wal := o.wal, pending := NO_SNAPSHOT), o.recovery;
    Reopened(d.image, d.wal);
    if r.snapshot.lastIndex == 0 {
      RecoveredFields(id, peers, timeout, d', r.hard, [ZERO_ENTRY] + r.suffix);
      RebuiltHalts(Rebuild(id, peers, timeout, d).value);
    } else if r.snapshot.oldVoters == 0 {
      VoterlessStops(id, peers, timeout, d', r.hard, r.snapshot, r.suffix);
    } else {
      RecoveredSnapshotFields(id, peers, timeout, d', r.hard, r.snapshot, r.suffix);
      RebuiltHalts(Rebuild(id, peers, timeout, d).value);
    }
  }

  lemma RebuiltHalts(n: NodeState)
    requires Mirror(n) && n.outbound == [] && n.state == Follower
    ensures Halted(n)
  {
    hide SameLog, Retained;
    SoundWhileRunning(n);
    SameRetains(n.baseIndex, n.log, Max(n.applied, n.commit), n.disk);
  }

  lemma VoterlessStops(id: Id, peers: seq<Id>, timeout: nat, d: S.Disk, hard: HardState, s: Snapshot, suffix: seq<Entry>)
    requires NodeId(id) && (forall p :: p in peers ==> NodeId(p)) && Distinct(id, peers) && s.oldVoters == 0 && Sound(d)
    ensures var r := RecoveredNodeWithSnapshot(id, peers, timeout, d, hard, s, suffix);
      r.faulted && Halted(r) && r.term == hard.term && r.votedFor == hard.votedFor && r.disk == d
  {
    hide MaskFrom, EnsurePeers, Or, Recalls, Sound;
  }

  /** What opening leaves on disk. */
  lemma Reopened(image: Snapshot, w: W.Wal)
    requires 0 < |w.data| && w.base <= image.lastIndex <= W.LastIndex(w) && w.hard.commit <= W.LastIndex(w)
    requires w.base < image.lastIndex && w.data[image.lastIndex - w.base].term != image.lastTerm ==> w.hard.commit <= image.lastIndex
    ensures var o := Store.Open(image, w);
      && o.Some? && o.value.wal.hard == w.hard && o.value.wal.base == image.lastIndex && 0 < |o.value.wal.data|
      && o.value.recovery == Store.Recovery(w.hard, image, o.value.wal.data[1..])
      && Max(w.hard.commit, image.lastIndex) < image.lastIndex + |o.value.wal.data|
      && (image.lastIndex == w.base ==> o.value.wal == w)
  {
  }

  /** Rebuilding a running node's store, with whatever peers, gives the same term, vote, commit
      index, base, and log above the base, unless its snapshot names no voters. */
  lemma RebuildsSame(n: NodeState, peers: seq<Id>)
    requires Valid(n) && !n.faulted && Mirror(n) && (forall p :: p in peers ==> NodeId(p)) && Distinct(n.id, peers)
    ensures 0 < |n.disk.wal.data|
    ensures var r := Rebuild(n.id, peers, n.timeout, n.disk);
      && r.Some? && r.value.term == n.term && r.value.votedFor == n.votedFor
      && if Voterless(n.disk) then r.value.faulted
         else
           && r.value.commit == n.commit && r.value.baseIndex == n.baseIndex && 0 < |r.value.log| == |n.log|
           && r.value.log[1..] == n.log[1..] && r.value.log[0].term == n.log[0].term
  {
    hide RecoveredNode, RecoveredNodeWithSnapshot;
    SameSize(n.log, n.disk.wal.data);
    SoundWhileRunning(n);
    RebuildMirrors(n.id, peers, n.timeout, n.disk);
    Reopened(n.disk.image, n.disk.wal);
    if !Voterless(n.disk) { SameAgain(n.log, n.disk.wal.data, Rebuild(n.id, peers, n.timeout, n.disk).value.log); }
  }

  lemma SameAgain(log: seq<Entry>, data: seq<Entry>, rebuilt: seq<Entry>)
    requires SameLog(log, data) && SameLog(rebuilt, data)
    ensures |rebuilt| == |log| && rebuilt[1..] == log[1..]
  {
  }

  lemma SoundWhileRunning(n: NodeState)
    requires Mirror(n)
    ensures Sound(n.disk) && n.disk.image.lastIndex == n.disk.wal.base
  {
  }

  // ----- Whole histories -----

  /** A call with a plan for its writes, or a restart with the peers the node was given. */
  datatype Event = Do(call: Call, budget: nat, kept: bool) | Reboot

  predicate Durable(n: NodeState) {
    Valid(n) && Sound(n.disk) && if n.faulted then Halted(n) else Mirror(n)
  }

  function Planned(n: NodeState, budget: nat, kept: bool): NodeState {
    n.(disk := n.disk.(budget := budget, kept := kept))
  }

  predicate Possible(id: Id, peers: seq<Id>, n: NodeState, e: Event) {
    match e
    case Do(call, _, _) => 0 < |n.log| && Proper(call) && Consistent(n, call)
    case Reboot => NodeId(id) && (forall p :: p in peers ==> NodeId(p)) && Distinct(id, peers)
  }

  /** A restart that cannot open its disk leaves everything as it is. */
  function Next(id: Id, peers: seq<Id>, n: NodeState, e: Event): NodeState
    requires Durable(n) && Possible(id, peers, n, e)
  {
    match e
    case Do(call, budget, kept) => Perform(Planned(n, budget, kept), call)
    case Reboot => var r := Rebuild(id, peers, n.timeout, n.disk); if r.Some? then r.value else n
  }

  lemma PlannedKept(n: NodeState, budget: nat, kept: bool)
    requires Durable(n)
    ensures var p := Planned(n, budget, kept); Valid(p) && p.faulted == n.faulted && if n.faulted then Halted(p) else Mirror(p)
  {
    hide SameLog;
  }

  lemma KeptIsDurable(n: NodeState)
    requires Valid(n) && Kept(n)
    ensures Durable(n)
  {
    if !n.faulted { SoundWhileRunning(n); }
  }

  lemma {:induction false} NextDurable(id: Id, peers: seq<Id>, n: NodeState, e: Event)
    requires Durable(n) && Possible(id, peers, n, e)
    ensures Durable(Next(id, peers, n, e))
  {
    hide Mirrored, Sound, Perform, Rebuild, Retained;
    match e {
      case Do(call, budget, kept) =>
        var p := Planned(n, budget, kept);
        PlannedKept(n, budget, kept);
        if n.faulted {
          CallHalted(p, call);
        } else {
          ConsistentStill(n, budget, kept, call);
          CallKept(p, call);
          KeptIsDurable(Perform(p, call));
        }
      case Reboot =>
        RebootDurable(id, peers, n);
    }
  }

  lemma RebootDurable(id: Id, peers: seq<Id>, n: NodeState)
    requires Durable(n) && NodeId(id) && (forall p :: p in peers ==> NodeId(p)) && Distinct(id, peers)
    ensures Durable(Next(id, peers, n, Reboot))
  {
    hide Mirrored, Rebuild, Retained;
    if Openable(n.disk) {
      RebuildMirrors(id, peers, n.timeout, n.disk);
      RebuildValid(id, peers, n.timeout, n.disk);
      if !Rebuild(id, peers, n.timeout, n.disk).value.faulted { SoundWhileRunning(Rebuild(id, peers, n.timeout, n.disk).value); }
    } else {
      Unopened(id, peers, n.timeout, n.disk);
    }
  }

  lemma Unopened(id: Id, peers: seq<Id>, timeout: nat, d: S.Disk)
    requires Sound(d) && !Openable(d) && NodeId(id) && (forall p :: p in peers ==> NodeId(p)) && Distinct(id, peers)
    ensures Rebuild(id, peers, timeout, d).None?
  {
    Store.OpensWithinLog(d.image, d.wal);
  }

  lemma ConsistentStill(n: NodeState, budget: nat, kept: bool, call: Call)
    requires 0 < |n.log| && Consistent(n, call)
    ensures Consistent(Planned(n, budget, kept), call)
  {
    hide ValidNewEntry;
  }

  lemma RebuildValid(id: Id, peers: seq<Id>, timeout: nat, d: S.Disk)
    requires 0 < |d.wal.data| && NodeId(id) && (forall p :: p in peers ==> NodeId(p)) && Distinct(id, peers)
    requires Rebuild(id, peers, timeout, d).Some?
    ensures Valid(Rebuild(id, peers, timeout, d).value)
  {
  }

  predicate Follows(id: Id, peers: seq<Id>, n: NodeState, e: Event, n': NodeState) {
    Durable(n) ==> Possible(id, peers, n, e) && n' == Next(id, peers, n, e)
  }

  ghost predicate History(id: Id, peers: seq<Id>, states: seq<NodeState>, events: seq<Event>) {
    && |states| == |events| + 1
    && NodeId(id) && (forall p :: p in peers ==> NodeId(p)) && Distinct(id, peers)
    && states[0] == NewNode(id, peers, states[0].timeout, S.FRESH)
    && (forall i :: 0 <= i < |events| ==> Follows(id, peers, states[i], events[i], states[i + 1]))
  }

  /**
   * Over any history of public calls, failed writes and restarts, with messages that contradict
   * nothing committed, a running node's disk holds its term, vote, commit index, base and log,
   * and a stopped node's disk, which it may go on compacting, can be opened again unless its
   * snapshot lies beyond its log.
   */
  lemma {:induction false} DurableMirror(id: Id, peers: seq<Id>, states: seq<NodeState>, events: seq<Event>, i: nat)
    requires History(id, peers, states, events) && i < |states|
    ensures Durable(states[i])
    decreases i
  {
    hide Durable, Possible, Next;
    if i == 0 {
      FreshDurable(id, peers, states[0].timeout);
    } else {
      DurableMirror(id, peers, states, events, i - 1);
      assert Follows(id, peers, states[i - 1], events[i - 1], states[i]);
      NextDurable(id, peers, states[i - 1], events[i - 1]);
    }
  }

  lemma FreshDurable(id: Id, peers: seq<Id>, timeout: nat)
    requires NodeId(id) && (forall p :: p in peers ==> NodeId(p)) && Distinct(id, peers)
    ensures Durable(NewNode(id, peers, timeout, S.FRESH))
  {
    hide MaskFrom;
  }

  // ----- Exactly when the order of indexes survives -----

  /** A message that would drop committed entries leaves the commit index beyond the log. */
  lemma OverwritingBreaksOrder(n: NodeState, m: Message)
    requires Valid(n) && !n.faulted && Mirror(n) && NodeId(m.from) && !RejectsAppend(n, m) && Overwrites(n, m)
    ensures var r := OnAppend(n, m); r.faulted || r.commit > LastIndex(r)
  {
    hide StoreEntry, ValidNewEntry, Persist, Mirrored;
    MirrorIsSane(n);
    StoreOverwrites(n.(state := Follower, leader := m.from, elapsed := 0), m.logIndex + 1, m.entry);
  }

  lemma StoreOverwrites(n: NodeState, at: nat, e: Entry)
    requires Valid(n) && !n.faulted && n.baseIndex < at && InLog(n, at) && TermAt(n, at) != e.term
    ensures var r := StoreEntry(n, at, e); r.faulted || (LastIndex(r) == at && r.commit == n.commit)
  {
    hide RebuildPendingConfig, EnsurePeers, S.Append;
  }

  lemma ContradictionBreaksOrder(n: NodeState, m: Message)
    requires Valid(n) && !n.faulted && !RejectsSnapshot(n, m) && Contradicts(n, m.snapshot)
    ensures var r := OnInstallSnapshot(n, m); r.faulted || r.commit > LastIndex(r)
  {
    hide S.SaveSnapshot, S.CompactLog;
  }

  /** For a delivered append or snapshot that the node survives, base, applied, commit and last
      index stay in order exactly when the message contradicts nothing committed. */
  lemma OrderExactly(n: NodeState, m: Message)
    requires Valid(n) && !n.faulted && Mirror(n) && NodeId(m.from) && (m.kind == Append || m.kind == InstallSnapshot)
    requires !Step(n, m).faulted
    ensures Sane(Step(n, m)) <==> Harmless(n, m)
  {
    hide Mirrored, AdoptTerm, OnAppend, OnInstallSnapshot, ValidNewEntry, Halted;
    if Harmless(n, m) {
      StepKept(n, m);
      MirrorIsSane(Step(n, m));
    } else {
      AdoptTermKept(n, m);
      StillHarmful(n, m);
      if m.kind == Append { OverwritingBreaksOrder(AdoptTerm(n, m), m); } else { ContradictionBreaksOrder(AdoptTerm(n, m), m); }
    }
  }

  lemma AdoptShape(n: NodeState, m: Message)
    requires Valid(n)
    ensures var r := AdoptTerm(n, m);
      !r.faulted ==>
        && r == n.(disk := r.disk, state := r.state, term := Max(n.term, r.term), votedFor := r.votedFor, leader := r.leader, readReady := r.readReady)
        && (r.term == n.term || (r.term == m.term && n.term < m.term))
        && (m.kind != PreVote && m.kind != PreVoteResponse ==> m.term <= r.term)
  {
  }

  lemma StillHarmful(n: NodeState, m: Message)
    requires Valid(n) && !AdoptTerm(n, m).faulted && (m.kind == Append || m.kind == InstallSnapshot) && !Harmless(n, m)
    ensures var n1 := AdoptTerm(n, m);
      if m.kind == Append then !RejectsAppend(n1, m) && Overwrites(n1, m) else !RejectsSnapshot(n1, m) && Contradicts(n1, m.snapshot)
  {
    hide AdoptTerm;
    AdoptShape(n, m);
  }
}
