/**
 * What a node says is what its disk holds: a vote is granted and an append acknowledged only
 * once the record behind it is durable, for any configuration, with compaction and snapshots.
 */
module NodePromises {
  import opened Quorums
  import opened Bits
  import opened RaftTypes
  import opened NodeModel
  import opened NodeDurability
  import W = RaftWal
  import S = StableStore

  /** A granted vote or an acknowledged append. */
  predicate Promise(m: Message) {
    !m.reject && (m.kind == RequestVoteResponse || m.kind == AppendResponse)
  }

  /** The disk holds what the promise says: the vote, or a log as long as acknowledged. */
  predicate Backed(d: S.Disk, m: Message) {
    && d.wal.hard.term == m.term
    && (m.kind == RequestVoteResponse ==> d.wal.hard.votedFor == m.to != 0)
    && (m.kind == AppendResponse ==> d.wal.base <= m.acked < d.wal.base + |d.wal.data|)
  }

  /** Terms only grow, and within a term a vote is cast at most once. */
  predicate Forward(term: nat, vote: Id, term': nat, vote': Id) {
    term < term' || (term == term' && (vote == 0 || vote == vote'))
  }

  /** `b` continues `a` without a promise. */
  predicate Quiet(a: seq<Message>, b: seq<Message>) {
    a <= b && forall k :: |a| <= k < |b| ==> !Promise(b[k])
  }

  /** `b` continues `a`, and every promise that is new is backed. */
  predicate Uttered(a: seq<Message>, b: seq<Message>, d: S.Disk) {
    a <= b && forall k :: |a| <= k < |b| && Promise(b[k]) ==> Backed(d, b[k])
  }

  predicate Silent(n: NodeState, r: NodeState) {
    if r.faulted then r.outbound == [] else Forward(n.term, n.votedFor, r.term, r.votedFor) && Quiet(n.outbound, r.outbound)
  }

  predicate Spoken(n: NodeState, r: NodeState) {
    if r.faulted then r.outbound == [] else Forward(n.term, n.votedFor, r.term, r.votedFor) && Uttered(n.outbound, r.outbound, r.disk)
  }

  lemma QuietFurther(a: seq<Message>, b: seq<Message>, c: seq<Message>)
    requires Quiet(a, b) && Quiet(b, c)
    ensures Quiet(a, c)
  {
    forall k | |a| <= k < |c| ensures !Promise(c[k]) {
      if k < |b| { assert c[k] == b[k]; }
    }
  }

  lemma UtteredFurther(a: seq<Message>, b: seq<Message>, c: seq<Message>, d: S.Disk)
    requires Quiet(a, b) && Uttered(b, c, d)
    ensures Uttered(a, c, d)
  {
    assert forall k :: |a| <= k < |b| ==> c[k] == b[k];
  }

  lemma SilentFurther(n: NodeState, n1: NodeState, r: NodeState)
    requires Silent(n, n1) && !n1.faulted && Silent(n1, r)
    ensures Silent(n, r)
  {
    if !r.faulted { QuietFurther(n.outbound, n1.outbound, r.outbound); }
  }

  lemma SilentIsSpoken(n: NodeState, r: NodeState)
    requires Silent(n, r)
    ensures Spoken(n, r)
  {
  }

  // ----- Messages that promise nothing -----

  lemma AppendToQuiet(n: NodeState, p: Id, context: nat)
    requires 0 < |n.log|
    ensures Quiet(n.outbound, AppendToContext(n, p, context).outbound)
  {
  }

  lemma {:induction false} BroadcastQuiet(n: NodeState, k: nat)
    requires Valid(n) && k <= |n.peers|
    ensures Quiet(n.outbound, BroadcastFrom(n, k).outbound)
    decreases |n.peers| - k
  {
    hide Quiet, AppendToContext, IsVoter;
    SameQueue(n.outbound);
    if k < |n.peers| {
      var n1 := if IsVoter(n, n.peers[k]) then AppendToContext(n, n.peers[k], 0) else n;
      AppendToQuiet(n, n.peers[k], 0);
      BroadcastQuiet(n1, k + 1);
      QuietFurther(n.outbound, n1.outbound, BroadcastFrom(n1, k + 1).outbound);
    }
  }

  lemma SameQueue(a: seq<Message>)
    ensures Quiet(a, a)
  {
  }

  lemma {:induction false} AppendAllQuiet(n: NodeState, context: nat, k: nat)
    requires Valid(n) && k <= |n.peers|
    ensures Quiet(n.outbound, AppendAllFrom(n, context, k).outbound)
    decreases |n.peers| - k
  {
    hide Quiet, AppendToContext;
    SameQueue(n.outbound);
    if k < |n.peers| {
      var n1 := AppendToContext(n, n.peers[k], context);
      AppendToQuiet(n, n.peers[k], context);
      AppendAllQuiet(n1, context, k + 1);
      QuietFurther(n.outbound, n1.outbound, AppendAllFrom(n1, context, k + 1).outbound);
    }
  }

  lemma {:induction false} AskQuiet(n: NodeState, kind: MessageType, term: nat, k: nat)
    requires 0 < |n.log| && k <= |n.peers| && (kind == PreVote || kind == RequestVote)
    ensures Quiet(n.outbound, AskFrom(n, kind, term, k).outbound)
    decreases |n.peers| - k
  {
    if k < |n.peers| {
      var m := Blank(kind, n.id, n.peers[k], term).(logIndex := LastIndex(n), logTerm := TermAt(n, LastIndex(n)));
      AskQuiet(Emit(n, m), kind, term, k + 1);
      QuietFurther(n.outbound, n.outbound + [m], AskFrom(Emit(n, m), kind, term, k + 1).outbound);
    }
  }

  // ----- Elections -----

  /** A change that touches neither term, vote nor queue. */
  lemma SilentSame(n: NodeState, r: NodeState)
    requires if r.faulted then r.outbound == [] else r.term == n.term && r.votedFor == n.votedFor && r.outbound == n.outbound
    ensures Silent(n, r)
  {
  }

  lemma AppendLocalSilent(n: NodeState, e: Entry)
    requires Valid(n) && !n.faulted
    ensures Silent(n, AppendLocal(n, e))
  {
    hide QuorumMask, ApplyFrom, S.Append, S.SaveHardState, NodeBit, Silent;
    SilentSame(n, AppendLocal(n, e));
  }

  lemma BroadcastSilent(n: NodeState)
    requires Valid(n) && !n.faulted
    ensures Silent(n, BroadcastAppend(n))
  {
    hide Quiet;
    BroadcastQuiet(n, 0);
  }

  lemma BecomeLeaderSilent(n: NodeState)
    requires Valid(n) && !n.faulted
    ensures Silent(n, BecomeLeader(n))
  {
    hide AppendLocal, BroadcastAppend, ResetPeersFrom, Quiet;
    var n0 := n.(state := Leader, leader := n.id, elapsed := 0);
    var n1 := AppendLocal(n0, ZERO_ENTRY.(term := n.term, kind := Noop));
    AppendLocalSilent(n0, ZERO_ENTRY.(term := n.term, kind := Noop));
    if !n1.faulted {
      var n2 := ResetPeersFrom(n1, LastIndex(n1) + 1, 0);
      BroadcastSilent(n2);
      SilentFurther(n, n1, BroadcastAppend(n2));
    }
  }

  lemma StartElectionSilent(n: NodeState)
    requires Valid(n) && !n.faulted
    ensures Silent(n, StartElection(n))
  {
    hide QuorumMask, BecomeLeader, NodeBit, S.SaveHardState, Quiet, AskFrom;
    var n1 := Persist(n, HardState(n.term + 1, n.id, n.commit));
    if !n1.faulted {
      var n2 := n1.(state := Candidate, term := n.term + 1, votedFor := n.id, elapsed := 0, voteMask := NodeBit(n.id), preVoteMask := 0);
      var n3 := AskAll(n2, RequestVote, n2.term);
      AskQuiet(n2, RequestVote, n2.term, 0);
      BecomeLeaderSilent(n3);
      if QuorumMask(n3, n3.voteMask) { SilentFurther(n, n3, BecomeLeader(n3)); }
    }
  }

  lemma StartPreVoteSilent(n: NodeState)
    requires Valid(n) && !n.faulted
    ensures Silent(n, StartPreVote(n))
  {
    hide QuorumMask, StartElection, NodeBit, Quiet, AskFrom;
    var n1 := n.(elapsed := 0, preVoteTerm := n.term + 1, leader := 0, preVoteMask := NodeBit(n.id));
    var n2 := AskAll(n1, PreVote, n1.preVoteTerm);
    AskQuiet(n1, PreVote, n1.preVoteTerm, 0);
    StartElectionSilent(n2);
    if QuorumMask(n2, n2.preVoteMask) { SilentFurther(n, n2, StartElection(n2)); }
  }

  lemma TickSilent(n: NodeState)
    requires Valid(n) && !n.faulted
    ensures Silent(n, Tick(n))
  {
    hide StartPreVote, BroadcastAppend, Quiet;
    SameQueue(n.outbound);
    StartPreVoteSilent(n.(elapsed := n.elapsed + 1));
    BroadcastSilent(n.(elapsed := 0));
  }

  lemma VotesSilent(n: NodeState, m: Message)
    requires Valid(n) && !n.faulted && NodeId(m.from)
    ensures Silent(n, OnPreVote(n, m)) && Silent(n, OnPreVoteResponse(n, m)) && Silent(n, OnVoteResponse(n, m))
  {
    hide QuorumMask, IsVoter, StartElection, BecomeLeader, NodeBit, Or, AsUpToDate;
    StartElectionSilent(n.(preVoteMask := Or(n.preVoteMask, NodeBit(m.from))));
    BecomeLeaderSilent(n.(voteMask := Or(n.voteMask, NodeBit(m.from))));
  }

  /** A granted vote is on disk when it is queued. */
  lemma OnVoteSpoken(n: NodeState, m: Message)
    requires Valid(n) && !n.faulted && Mirror(n) && NodeId(m.from)
    ensures Spoken(n, OnVote(n, m))
  {
    hide IsVoter, AsUpToDate, Persist, SameLog, Halted;
    OnVoteKept(n, m);
    PersistShape(n, HardState(n.term, m.from, n.commit));
  }

  lemma PersistShape(n: NodeState, h: HardState)
    requires !n.faulted
    ensures var r := Persist(n, h); if r.faulted then r.outbound == [] else r == n.(disk := r.disk)
  {
    hide S.SaveHardState;
  }

  lemma AdoptTermSilent(n: NodeState, m: Message)
    requires Valid(n) && !n.faulted
    ensures Silent(n, AdoptTerm(n, m))
  {
    hide S.SaveHardState;
  }

  // ----- Following -----

  /** What an append message asks the follower to hold is in its log when it is acknowledged. */
  predicate Held(n: NodeState, m: Message) {
    && n.baseIndex <= m.logIndex && MatchedIndex(m) < n.baseIndex + |n.log|
    && TermAt(n, m.logIndex) == m.logTerm && (m.hasEntry ==> TermAt(n, m.logIndex + 1) == m.entry.term)
  }

  predicate SameVoice(n: NodeState, r: NodeState) {
    r.outbound == n.outbound && r.term == n.term && r.votedFor == n.votedFor && r.baseIndex == n.baseIndex && r.id == n.id
  }

  lemma ClearedShape(n: NodeState, at: nat, e: Entry)
    requires Valid(n) && n.baseIndex < at <= LastIndex(n) + 1
    ensures var r := Cleared(n, at, e);
      && SameVoice(n, r) && r.faulted == n.faulted && at <= LastIndex(r) + 1
      && (at <= LastIndex(r) ==> TermAt(r, at) == e.term) && TermAt(r, at - 1) == TermAt(n, at - 1)
  {
    hide RebuildPendingConfig;
  }

  lemma SettleShape(n: NodeState, a: S.Attempt)
    requires !n.faulted
    ensures var r := Settle(n, a); if r.faulted then r.outbound == [] else r == n.(disk := r.disk)
  {
  }

  /** One entry more at the end of the log. */
  predicate Longer(n: NodeState, r: NodeState, e: Entry) {
    SameVoice(n, r) && r.log == n.log + [e]
  }

  lemma LongerShape(n: NodeState, r: NodeState, at: nat, e: Entry)
    requires 0 < |n.log| && Longer(n, r, e) && n.baseIndex < at == LastIndex(n) + 1
    ensures at <= LastIndex(r) && TermAt(r, at) == e.term && TermAt(r, at - 1) == TermAt(n, at - 1)
  {
  }

  lemma AppendAtShape(n: NodeState, at: nat, e: Entry)
    requires Valid(n) && !n.faulted && n.baseIndex < at <= LastIndex(n) + 1 && (at <= LastIndex(n) ==> TermAt(n, at) == e.term)
    ensures var r := AppendAt(n, at, e);
      if r.faulted then r.outbound == []
      else SameVoice(n, r) && at <= LastIndex(r) && TermAt(r, at) == e.term && TermAt(r, at - 1) == TermAt(n, at - 1)
  {
    hide EnsurePeers, Or, S.Append, Settle, TermAt;
    if at == LastIndex(n) + 1 {
      SettleShape(n, S.Append(n.disk, at, e));
      var r := AppendAt(n, at, e);
      if !r.faulted { LongerShape(n, r, at, e); }
    }
  }

  lemma StoreEntryShape(n: NodeState, at: nat, e: Entry)
    requires Valid(n) && !n.faulted && n.baseIndex < at <= LastIndex(n) + 1
    ensures var r := StoreEntry(n, at, e);
      if r.faulted then r.outbound == []
      else SameVoice(n, r) && at <= LastIndex(r) && TermAt(r, at) == e.term && TermAt(r, at - 1) == TermAt(n, at - 1)
  {
    hide Cleared, AppendAt, TermAt;
    ClearedShape(n, at, e);
    AppendAtShape(Cleared(n, at, e), at, e);
  }

  lemma FollowCommitShape(n: NodeState, m: Message)
    requires Valid(n) && !n.faulted
    ensures var r := FollowCommit(n, m);
      if r.faulted then r.outbound == []
      else SameVoice(n, r) && r.log == n.log
  {
    hide ApplyCommittedConfigurations, S.SaveHardState;
  }

  function Ack(n: NodeState, m: Message): Message {
    Blank(AppendResponse, n.id, m.from, n.term).(acked := MatchedIndex(m), context := m.context)
  }

  lemma OnAppendShape(n: NodeState, m: Message)
    requires Valid(n) && !n.faulted && NodeId(m.from) && !RejectsAppend(n, m)
    ensures var r := OnAppend(n, m);
      if r.faulted then r.outbound == []
      else r.outbound == n.outbound + [Ack(n, m)] && r.term == n.term && r.votedFor == n.votedFor && Held(r, m)
  {
    hide StoreEntry, FollowCommit, ValidNewEntry;
    var n1 := n.(state := Follower, leader := m.from, elapsed := 0);
    if m.hasEntry { StoreEntryShape(n1, m.logIndex + 1, m.entry); }
    var n2 := if m.hasEntry then StoreEntry(n1, m.logIndex + 1, m.entry) else n1;
    if !n2.faulted { FollowCommitShape(n2, m); }
  }

  /** What is acknowledged is on disk. */
  predicate Stored(d: S.Disk, m: Message) {
    && d.wal.base <= MatchedIndex(m) < d.wal.base + |d.wal.data|
    && (d.wal.base < m.logIndex ==> W.TermAt(d.wal, m.logIndex) == Some(m.logTerm))
    && (m.hasEntry ==> W.TermAt(d.wal, m.logIndex + 1) == Some(m.entry.term))
  }

  /** An append that is not rejected is acknowledged once its entry, after the entry it names as
      the one before, is on disk. */
  lemma OnAppendSpoken(n: NodeState, m: Message)
    requires Valid(n) && !n.faulted && Mirror(n) && NodeId(m.from) && (RejectsAppend(n, m) || !Overwrites(n, m))
    ensures Spoken(n, OnAppend(n, m))
    ensures !RejectsAppend(n, m) && !OnAppend(n, m).faulted ==> Stored(OnAppend(n, m).disk, m)
  {
    hide OnAppend, Mirror, Halted, RejectsAppend, Overwrites, Spoken, Stored;
    if RejectsAppend(n, m) { RejectionSpoken(n, m); } else { AcceptanceSpoken(n, m); }
  }

  lemma RejectionSpoken(n: NodeState, m: Message)
    requires Valid(n) && !n.faulted && NodeId(m.from) && RejectsAppend(n, m)
    ensures Spoken(n, OnAppend(n, m))
  {
    hide AcceptAppend, RejectsAppend;
  }

  lemma AcceptanceSpoken(n: NodeState, m: Message)
    requires Valid(n) && !n.faulted && Mirror(n) && NodeId(m.from) && !RejectsAppend(n, m) && !Overwrites(n, m)
    ensures Spoken(n, OnAppend(n, m)) && (!OnAppend(n, m).faulted ==> Stored(OnAppend(n, m).disk, m))
  {
    hide OnAppend, Halted, Mirrored, Stored, Held, ValidNewEntry;
    OnAppendKept(n, m);
    OnAppendShape(n, m);
    var r := OnAppend(n, m);
    if !r.faulted {
      HeldIsStored(r, m);
      AckIsBacked(n, r, m);
    }
  }

  lemma AckIsBacked(n: NodeState, r: NodeState, m: Message)
    requires Mirror(r) && Held(r, m) && r.term == n.term
    ensures Backed(r.disk, Ack(n, m))
  {
    SameSize(r.log, r.disk.wal.data);
  }

  lemma HeldIsStored(r: NodeState, m: Message)
    requires Mirror(r) && Held(r, m)
    ensures Stored(r.disk, m)
  {
    SameSize(r.log, r.disk.wal.data);
    if r.baseIndex < m.logIndex { TermOnDisk(r, m.logIndex); }
    if m.hasEntry { TermOnDisk(r, m.logIndex + 1); }
  }

  // ----- Leading and snapshots -----

  lemma AppendToSilent(n: NodeState, p: Id, context: nat)
    requires Valid(n) && !n.faulted
    ensures Silent(n, AppendToContext(n, p, context))
  {
    hide Quiet;
    AppendToQuiet(n, p, context);
  }

  lemma CommitAtSilent(n: NodeState, index: nat)
    requires Valid(n) && !n.faulted
    ensures Silent(n, CommitAt(n, index))
  {
    hide ApplyCommittedConfigurations, BroadcastAppend, S.SaveHardState, Quiet;
    SameQueue(n.outbound);
    var n1 := Persist(n, HardState(n.term, n.votedFor, index));
    if !n1.faulted {
      var n2 := ApplyCommittedConfigurations(n1.(commit := index), n.commit + 1, index);
      BroadcastSilent(n2);
    }
  }

  lemma ConfirmSilent(n: NodeState, peer: Id)
    requires Valid(n) && !n.faulted
    ensures Silent(n, Confirm(n, peer))
  {
    hide CommitAt, FindCommittable, AppendToContext, Silent;
    SilentSame(n, n);
    var n1 := AdvanceCommit(n);
    var found := FindCommittable(n, LastIndex(n));
    if found.Some? { CommitAtSilent(n, found.value); }
    if !n1.faulted {
      AppendToSilent(n1, peer, 0);
      SilentFurther(n, n1, AppendToContext(n1, peer, 0));
    } else {
      StoppedLeads(n, n1);
    }
  }

  lemma StoppedLeads(n: NodeState, n1: NodeState)
    requires Valid(n) && !n.faulted && n1 == AdvanceCommit(n) && n1.faulted
    ensures n1.state == Follower
  {
    hide FindCommittable, ApplyCommittedConfigurations, BroadcastAppend, S.SaveHardState;
  }

  lemma OnAppendResponseSilent(n: NodeState, m: Message)
    requires Valid(n) && !n.faulted && NodeId(m.from)
    ensures Silent(n, OnAppendResponse(n, m))
  {
    hide CountReadAck, Confirm, AppendToContext, Quiet;
    SameQueue(n.outbound);
    var n1 := CountReadAck(n, m);
    ConfirmSilent(RecordMatch(n1, m.from, m.acked), m.from);
    var next := Lookup(n1.next, m.from);
    AppendToSilent(if next > 1 then n1.(next := n1.next[m.from := next - 1]) else n1, m.from, 0);
  }

  lemma TakeSnapshotSilent(n: NodeState, s: Snapshot)
    requires Valid(n) && !n.faulted
    ensures Silent(n, TakeSnapshot(n, s))
  {
    hide S.SaveSnapshot, S.CompactLog;
  }

  lemma OnInstallSnapshotSilent(n: NodeState, m: Message)
    requires Valid(n) && !n.faulted
    ensures Silent(n, OnInstallSnapshot(n, m))
  {
    hide TakeSnapshot, RejectsSnapshot;
    var reject := RejectsSnapshot(n, m);
    if !reject && m.snapshot.lastIndex > n.baseIndex { TakeSnapshotSilent(n, m.snapshot); }
    var n1 := if !reject && m.snapshot.lastIndex > n.baseIndex then TakeSnapshot(n, m.snapshot) else n;
    if !n1.faulted { SilentFurther(n, n1, OnInstallSnapshot(n, m)); }
  }

  lemma OnInstallSnapshotResponseSilent(n: NodeState, m: Message)
    requires Valid(n) && !n.faulted && NodeId(m.from)
    ensures Silent(n, OnInstallSnapshotResponse(n, m))
  {
    hide IsVoter, AppendToContext, Quiet;
    SameQueue(n.outbound);
    var n1 := if m.acked > Lookup(n.matched, m.from)
              then n.(matched := n.matched[m.from := m.acked], next := n.next[m.from := m.acked + 1]) else n;
    AppendToSilent(n1, m.from, 0);
  }

  // ----- Every public call -----

  lemma DispatchSpoken(n: NodeState, m: Message)
    requires Valid(n) && !n.faulted && Mirror(n) && NodeId(m.from)
    requires m.kind == Append ==> RejectsAppend(n, m) || !Overwrites(n, m)
    ensures Spoken(n, Dispatch(n, m))
  {
    hide Mirror, OnPreVote, OnPreVoteResponse, OnVote, OnVoteResponse, OnAppend, OnAppendResponse, OnInstallSnapshot, OnInstallSnapshotResponse,
      StartElection, RejectsAppend, Overwrites, Spoken, Silent;
    match m.kind {
      case PreVote => VotesSilent(n, m); SilentIsSpoken(n, OnPreVote(n, m));
      case PreVoteResponse => VotesSilent(n, m); SilentIsSpoken(n, OnPreVoteResponse(n, m));
      case RequestVote => OnVoteSpoken(n, m);
      case RequestVoteResponse => VotesSilent(n, m); SilentIsSpoken(n, OnVoteResponse(n, m));
      case Append => OnAppendSpoken(n, m);
      case AppendResponse => OnAppendResponseSilent(n, m); SilentIsSpoken(n, OnAppendResponse(n, m));
      case InstallSnapshot => OnInstallSnapshotSilent(n, m); SilentIsSpoken(n, OnInstallSnapshot(n, m));
      case InstallSnapshotResponse => OnInstallSnapshotResponseSilent(n, m); SilentIsSpoken(n, OnInstallSnapshotResponse(n, m));
      case TimeoutNow => StartElectionSilent(n); SilentSame(n, n); SilentIsSpoken(n, n); SilentIsSpoken(n, StartElection(n));
    }
  }

  lemma SpokenFurther(n: NodeState, n1: NodeState, r: NodeState)
    requires Silent(n, n1) && !n1.faulted && Spoken(n1, r)
    ensures Spoken(n, r)
  {
    if !r.faulted { UtteredFurther(n.outbound, n1.outbound, r.outbound, r.disk); }
  }

  lemma StepSpoken(n: NodeState, m: Message)
    requires Valid(n) && !n.faulted && Mirror(n) && NodeId(m.from) && Harmless(n, m)
    ensures Spoken(n, Step(n, m))
  {
    hide Mirrored, Halted, AdoptTerm, Dispatch, RejectsAppend, RejectsSnapshot, Harmless, Overwrites, Spoken, Silent;
    AdoptTermKept(n, m);
    AdoptTermSilent(n, m);
    var n1 := AdoptTerm(n, m);
    if n1.faulted {
      SilentIsSpoken(n, n1);
    } else {
      SameVerdict(n, m);
      DispatchSpoken(n1, m);
      SpokenFurther(n, n1, Dispatch(n1, m));
    }
  }

  /** A delivered append that the node survives is either refused in the answer, or acknowledged
      with its entry, and the entry before it, on a disk whose log is the node's. */
  lemma AcknowledgedIsStored(n: NodeState, m: Message)
    requires Valid(n) && !n.faulted && Mirror(n) && NodeId(m.from) && m.kind == Append && Harmless(n, m) && !Step(n, m).faulted
    ensures var r := Step(n, m);
      && |r.outbound| == |n.outbound| + 1
      && var answer := r.outbound[|n.outbound|];
      && answer.kind == AppendResponse
      && (!answer.reject ==> answer.acked == MatchedIndex(m) && Stored(r.disk, m) && SameLog(r.log, r.disk.wal.data))
  {
    hide Mirrored, Halted, AdoptTerm, OnAppend, RejectsAppend, RejectsSnapshot, Harmless, Overwrites, Stored;
    AdoptTermKept(n, m);
    AdoptShape(n, m);
    var n1 := AdoptTerm(n, m);
    SameVerdict(n, m);
    OnAppendSpoken(n1, m);
    OnAppendKept(n1, m);
    if RejectsAppend(n1, m) { Refusal(n1, m); } else { OnAppendShape(n1, m); }
    LogOnDisk(Step(n, m));
  }

  lemma Refusal(n: NodeState, m: Message)
    requires Valid(n) && NodeId(m.from) && RejectsAppend(n, m)
    ensures |OnAppend(n, m).outbound| == |n.outbound| + 1
    ensures var answer := OnAppend(n, m).outbound[|n.outbound|]; answer.kind == AppendResponse && answer.reject
  {
    hide AcceptAppend, RejectsAppend;
  }

  lemma LogOnDisk(n: NodeState)
    requires Mirror(n)
    ensures SameLog(n.log, n.disk.wal.data)
  {
  }

  lemma ProposeEntrySilent(n: NodeState, e: Entry)
    requires Valid(n) && !n.faulted
    ensures Silent(n, ProposeEntry(n, e))
  {
    hide AppendLocal, BroadcastAppend, Silent;
    AppendLocalSilent(n, e);
    var n1 := AppendLocal(n, e);
    if !n1.faulted {
      BroadcastSilent(n1);
      SilentFurther(n, n1, BroadcastAppend(n1));
    }
  }

  /** A configuration entry, appended, marked pending and sent. */
  lemma ChangeSilent(n: NodeState, n0: NodeState, e: Entry)
    requires Valid(n0) && !n.faulted && n0 == n.(peers := n0.peers, next := n0.next, matched := n0.matched)
    ensures var n1 := AppendLocal(n0, e);
      if n1.faulted then Silent(n, n1) else Silent(n, BroadcastAppend(n1.(pendingConfig := LastIndex(n1))))
  {
    hide AppendLocal, BroadcastAppend, Quiet;
    AppendLocalSilent(n0, e);
    var n1 := AppendLocal(n0, e);
    if !n1.faulted {
      var n2 := n1.(pendingConfig := LastIndex(n1));
      BroadcastSilent(n2);
      SilentFurther(n, n2, BroadcastAppend(n2));
    }
  }

  lemma ChangesSilent(n: NodeState, ids: seq<Id>)
    requires Valid(n) && !n.faulted && forall id :: id in ids ==> NodeId(id)
    ensures Silent(n, ProposeJoint(n, ids)) && Silent(n, ProposeFinal(n))
  {
    hide AppendLocal, BroadcastAppend, EnsurePeers, VoterMask, Silent;
    SilentSame(n, n);
    ChangeSilent(n, n, ZERO_ENTRY.(term := n.term, kind := FinalConfig, oldVoters := n.votersNew));
    if VoterMask(ids).Some? {
      var mask := VoterMask(ids).value;
      ChangeSilent(n, EnsurePeers(n, mask), ZERO_ENTRY.(term := n.term, kind := JointConfig, oldVoters := n.votersOld, newVoters := mask));
    }
  }

  lemma ReadSilent(n: NodeState, context: nat)
    requires Valid(n) && !n.faulted
    ensures Silent(n, StartReadIndex(n, context))
  {
    hide AppendAllFrom, OpenBarrier, CanStartRead, Quiet;
    SameQueue(n.outbound);
    OpenBarrierShape(n, context);
    AppendAllQuiet(OpenBarrier(n, context), context, 0);
  }

  lemma TransferSilent(n: NodeState, target: Id)
    requires Valid(n) && !n.faulted && NodeId(target)
    ensures Silent(n, TransferLeadership(n, target))
  {
    hide IsVoter, AppendToContext;
    AppendToSilent(n, target, 0);
  }

  lemma CompactSilent(n: NodeState, index: nat, state: seq<Byte>)
    requires Valid(n) && !n.faulted
    ensures Silent(n, Compact(n, index, state))
  {
    hide S.SaveSnapshot, S.CompactLog;
  }

  /** Every promise that a public call queues is backed by the disk the call leaves. */
  lemma CallSpoken(n: NodeState, call: Call)
    requires Valid(n) && !n.faulted && Mirror(n) && Proper(call) && Consistent(n, call) && !call.DrainCall?
    ensures Spoken(n, Perform(n, call))
  {
    hide Mirror, Harmless, Silent, Spoken, Tick, Step, ProposeEntry, ProposeJoint, ProposeFinal, StartReadIndex, TransferLeadership, ApplyEntries, Compact;
    var r := Perform(n, call);
    if call.StepCall? {
      StepSpoken(n, call.m);
    } else {
      CallSilent(n, call);
      SilentIsSpoken(n, r);
    }
  }

  lemma CallSilent(n: NodeState, call: Call)
    requires Valid(n) && !n.faulted && Proper(call) && !call.DrainCall? && !call.StepCall?
    ensures Silent(n, Perform(n, call))
  {
    hide Silent, Tick, Step, ProposeEntry, ProposeJoint, ProposeFinal, StartReadIndex, TransferLeadership, Compact;
    SilentSame(n, n);
    match call {
      case TickCall => TickSilent(n);
      case ProposeCall(command) => ProposeEntrySilent(n, ZERO_ENTRY.(term := n.term, command := command));
      case RequestCall(op, client, request, key, value) =>
        ProposeEntrySilent(n, ZERO_ENTRY.(term := n.term, operation := op, clientId := client, requestId := request, key := key, value := value));
      case JointCall(ids) => ChangesSilent(n, ids);
      case FinalCall => ChangesSilent(n, []);
      case ReadCall(context) => ReadSilent(n, context);
      case TransferCall(target) => TransferSilent(n, target);
      case ApplyCall => SilentSame(n, ApplyEntries(n));
      case CompactCall(index, state) => CompactSilent(n, index, state);
    }
  }

  // ----- Whole histories -----

  /** In any history every promise that an event queues is backed by the disk it leaves; a stopped
      node queues nothing. */
  lemma PromisesAreBacked(id: Id, peers: seq<Id>, states: seq<NodeState>, events: seq<Event>, i: nat)
    requires History(id, peers, states, events) && i < |events| && events[i].Do? && !events[i].call.DrainCall?
    ensures if states[i + 1].faulted then states[i + 1].outbound == [] else Uttered(states[i].outbound, states[i + 1].outbound, states[i + 1].disk)
  {
    hide Perform, Mirrored, Sound, Retained, Uttered, Forward;
    DurableMirror(id, peers, states, events, i);
    assert Follows(id, peers, states[i], events[i], states[i + 1]);
    var n, e := states[i], events[i];
    var p := Planned(n, e.budget, e.kept);
    PlannedKept(n, e.budget, e.kept);
    if n.faulted {
      CallHalted(p, e.call);
    } else {
      ConsistentStill(n, e.budget, e.kept, e.call);
      CallSpoken(p, e.call);
    }
  }

  /** A queued vote is the one on disk, unless the disk is in a later term. */
  predicate Honoured(d: S.Disk, m: Message) {
    m.kind == RequestVoteResponse && !m.reject ==>
      m.term < d.wal.hard.term || (m.term == d.wal.hard.term && d.wal.hard.votedFor == m.to != 0)
  }

  predicate AllHonoured(d: S.Disk, ms: seq<Message>) {
    forall k :: 0 <= k < |ms| ==> Honoured(d, ms[k])
  }

  lemma HonouredAfter(n: NodeState, r: NodeState)
    requires Mirror(n) && Mirror(r) && AllHonoured(n.disk, n.outbound)
    requires Forward(n.term, n.votedFor, r.term, r.votedFor) && Uttered(n.outbound, r.outbound, r.disk)
    ensures AllHonoured(r.disk, r.outbound)
  {
    hide SameLog;
    forall k | 0 <= k < |r.outbound| ensures Honoured(r.disk, r.outbound[k]) {
      if k < |n.outbound| { assert r.outbound[k] == n.outbound[k]; }
    }
  }

  lemma RebuiltIsSilent(id: Id, peers: seq<Id>, timeout: nat, d: S.Disk)
    requires 0 < |d.wal.data| && NodeId(id) && (forall p :: p in peers ==> NodeId(p)) && Distinct(id, peers)
    requires Rebuild(id, peers, timeout, d).Some?
    ensures Rebuild(id, peers, timeout, d).value.outbound == []
  {
    hide ReplayTo, RestoredPeers, MaskFrom, EnsurePeers, Or;
  }

  lemma CallHonours(n: NodeState, call: Call)
    requires Valid(n) && !n.faulted && Mirror(n) && Proper(call) && Consistent(n, call) && AllHonoured(n.disk, n.outbound)
    ensures var r := Perform(n, call); AllHonoured(r.disk, r.outbound)
  {
    hide Perform, Mirrored, Halted, Uttered, Forward, AllHonoured, Harmless;
    if call.DrainCall? {
      DrainedHonours(n);
    } else {
      CallSpoken(n, call);
      CallKept(n, call);
      if Perform(n, call).faulted { NothingHonours(Perform(n, call)); } else { HonouredAfter(n, Perform(n, call)); }
    }
  }

  lemma NothingHonours(n: NodeState)
    requires n.outbound == []
    ensures AllHonoured(n.disk, n.outbound)
  {
  }

  lemma DrainedHonours(n: NodeState)
    requires Valid(n)
    ensures AllHonoured(Perform(n, DrainCall).disk, Perform(n, DrainCall).outbound)
  {
  }

  /** In any history, as long as a granted vote is queued, the disk holds it or has moved past
      its term. */
  lemma {:induction false} VotesStayBacked(id: Id, peers: seq<Id>, states: seq<NodeState>, events: seq<Event>, i: nat)
    requires History(id, peers, states, events) && i < |states|
    ensures AllHonoured(states[i].disk, states[i].outbound)
    decreases i
  {
    hide Perform, Mirrored, Sound, Retained, AllHonoured, Rebuild;
    if i == 0 {
      NothingHonours(states[0]);
    } else {
      VotesStayBacked(id, peers, states, events, i - 1);
      DurableMirror(id, peers, states, events, i - 1);
      DurableMirror(id, peers, states, events, i);
      assert Follows(id, peers, states[i - 1], events[i - 1], states[i]);
      NextHonours(id, peers, states[i - 1], events[i - 1]);
    }
  }

  lemma NextHonours(id: Id, peers: seq<Id>, n: NodeState, e: Event)
    requires Durable(n) && Possible(id, peers, n, e) && AllHonoured(n.disk, n.outbound)
    ensures var r := Next(id, peers, n, e); AllHonoured(r.disk, r.outbound)
  {
    hide Perform, Mirrored, Sound, Retained, AllHonoured, Rebuild;
    match e {
      case Do(call, budget, kept) =>
        var p := Planned(n, budget, kept);
        PlannedKept(n, budget, kept);
        if n.faulted {
          CallHalted(p, call);
          NothingHonours(Perform(p, call));
        } else {
          PlannedHonours(n, budget, kept);
          ConsistentStill(n, budget, kept, call);
          CallHonours(p, call);
        }
      case Reboot =>
        SoundDisk(n.disk);
        if Rebuild(id, peers, n.timeout, n.disk).Some? {
          RebuiltIsSilent(id, peers, n.timeout, n.disk);
          NothingHonours(Rebuild(id, peers, n.timeout, n.disk).value);
        }
    }
  }

  lemma SoundDisk(d: S.Disk)
    requires Sound(d)
    ensures 0 < |d.wal.data|
  {
  }

  lemma PlannedHonours(n: NodeState, budget: nat, kept: bool)
    requires AllHonoured(n.disk, n.outbound)
    ensures AllHonoured(Planned(n, budget, kept).disk, Planned(n, budget, kept).outbound)
  {
  }
}
