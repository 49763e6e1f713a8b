/**
 * What each call does to a node, as a function from its state before to its state after.
 * The fields are those of the source's `Node`; `disk` is the stable store behind it.
 */
module NodeModel {
  import opened Quorums
  import opened Bits
  import opened RaftTypes
  import S = StableStore

  datatype NodeState = NodeState(
    id: Id, peers: seq<Id>, state: Role, term: nat, votedFor: Id, leader: Id,
    log: seq<Entry>, baseIndex: nat, baseTerm: nat, commit: nat, applied: nat,
    timeout: nat, elapsed: nat, voteMask: nat, preVoteMask: nat, preVoteTerm: nat,
    next: map<Id, nat>, matched: map<Id, nat>, outbound: seq<Message>, faulted: bool,
    readContext: nat, readAckMask: nat, readIndex: nat, readReady: bool,
    snapshot: Snapshot, votersOld: nat, votersNew: nat, pendingConfig: nat, disk: S.Disk)

  /** Identifiers are in range and the log holds at least its base. */
  predicate Valid(n: NodeState) {
    NodeId(n.id) && (forall p :: p in n.peers ==> NodeId(p)) && 0 < |n.log|
  }

  /** Base, applied, commit and last index stand in that order. */
  predicate Sane(n: NodeState) {
    Valid(n) && n.baseIndex <= n.applied <= n.commit <= LastIndex(n)
  }

  // ----- The log -----

  function LastIndex(n: NodeState): nat
    requires 0 < |n.log|
  {
    n.baseIndex + |n.log| - 1
  }

  predicate InLog(n: NodeState, index: nat) {
    n.baseIndex <= index < n.baseIndex + |n.log|
  }

  function EntryAt(n: NodeState, index: nat): Entry {
    if InLog(n, index) then n.log[index - n.baseIndex] else ZERO_ENTRY
  }

  function TermAt(n: NodeState, index: nat): nat {
    EntryAt(n, index).term
  }

  predicate IsConfig(e: Entry) {
    e.kind == JointConfig || e.kind == FinalConfig
  }

  // ----- Voters and quorums -----

  datatype Voters = Voters(old': nat, new': nat)

  /** A joint configuration takes effect as soon as it is in the log. */
  function VotersFrom(n: NodeState, index: nat, last: nat, v: Voters): Voters
    decreases last + 1 - index
  {
    if index > last then v
    else
      var e := EntryAt(n, index);
      VotersFrom(n, index + 1, last, if e.kind == JointConfig then Voters(e.oldVoters, e.newVoters) else v)
  }

  function EffectiveVoters(n: NodeState): Voters
    requires 0 < |n.log|
  {
    VotersFrom(n, Max(n.commit + 1, n.baseIndex + 1), LastIndex(n), Voters(n.votersOld, n.votersNew))
  }

  predicate Carries(v: Voters, mask: nat) {
    MajorityMask(v.old', mask) && (v.new' == 0 || MajorityMask(v.new', mask))
  }

  predicate QuorumMask(n: NodeState, mask: nat)
    requires 0 < |n.log|
  {
    Carries(EffectiveVoters(n), mask)
  }

  predicate IsVoter(n: NodeState, id: Id)
    requires 0 < |n.log| && NodeId(id)
  {
    var v := EffectiveVoters(n);
    And(Or(v.old', v.new'), NodeBit(id)) != 0
  }

  predicate CanCommitIndex(n: NodeState, index: nat, acked: nat) {
    Carries(VotersFrom(n, n.commit + 1, index, Voters(n.votersOld, n.votersNew)), acked)
  }

  // ----- Sending and storing -----

  function Emit(n: NodeState, m: Message): NodeState {
    n.(outbound := n.outbound + [m])
  }

  /** Fail-stop: give up every role and drop what was not yet sent. */
  function FailStorage(n: NodeState): NodeState {
    n.(faulted := true, state := Follower, leader := 0, outbound := [])
  }

  function Settle(n: NodeState, a: S.Attempt): NodeState {
    if a.ok then n.(disk := a.disk) else FailStorage(n.(disk := a.disk))
  }

  function Persist(n: NodeState, h: HardState): NodeState {
    Settle(n, S.SaveHardState(n.disk, h))
  }

  // ----- Replication -----

  function SnapshotMessage(n: NodeState, p: Id): Message {
    Blank(InstallSnapshot, n.id, p, n.term).(snapshot := n.snapshot)
  }

  function AppendMessage(n: NodeState, p: Id, next: nat, context: nat): Message
    requires 0 < next
  {
    var m := Blank(Append, n.id, p, n.term).(logIndex := next - 1, logTerm := TermAt(n, next - 1),
                                             commit := n.commit, context := context);
    if InLog(n, next) then m.(entry := EntryAt(n, next), hasEntry := true) else m
  }

  /** Sends `p` the entry it is waiting for, or a snapshot when that entry is compacted away. */
  function AppendToContext(n: NodeState, p: Id, context: nat): (r: NodeState)
    requires 0 < |n.log|
    ensures r == n.(next := r.next, outbound := r.outbound)
  {
    var next := Lookup(n.next, p);
    if next <= n.baseIndex then Emit(n, SnapshotMessage(n, p))
    else if next > LastIndex(n) + 1 then
      Emit(n.(next := n.next[p := LastIndex(n) + 1]), AppendMessage(n, p, LastIndex(n) + 1, context))
    else Emit(n, AppendMessage(n, p, next, context))
  }

  function BroadcastFrom(n: NodeState, k: nat): (r: NodeState)
    requires Valid(n) && k <= |n.peers|
    ensures r == n.(next := r.next, outbound := r.outbound)
    decreases |n.peers| - k
  {
    if k == |n.peers| then n
    else
      BroadcastFrom(if IsVoter(n, n.peers[k]) then AppendToContext(n, n.peers[k], 0) else n, k + 1)
  }

  function BroadcastAppend(n: NodeState): (r: NodeState)
    requires Valid(n)
    ensures r == n.(next := r.next, outbound := r.outbound)
  {
    BroadcastFrom(n, 0)
  }

  // ----- Configurations -----

  function EnsureFrom(n: NodeState, mask: nat, id: nat): (r: NodeState)
    requires Valid(n) && 1 <= id <= WIDTH + 1
    ensures Valid(r) && r == n.(peers := r.peers, next := r.next, matched := r.matched)
    ensures n.peers <= r.peers
    decreases WIDTH + 1 - id
  {
    if id > WIDTH then n
    else if id == n.id || And(mask, NodeBit(id)) == 0 || id in n.peers then EnsureFrom(n, mask, id + 1)
    else
      EnsureFrom(n.(peers := n.peers + [id], next := n.next[id := LastIndex(n) + 1], matched := n.matched[id := 0]), mask, id + 1)
  }

  function EnsurePeers(n: NodeState, mask: nat): (r: NodeState)
    requires Valid(n)
    ensures Valid(r) && r == n.(peers := r.peers, next := r.next, matched := r.matched)
    ensures n.peers <= r.peers
  {
    EnsureFrom(n, mask, 1)
  }

  function ApplyConfiguration(n: NodeState, index: nat): (r: NodeState)
    requires Valid(n)
    ensures Valid(r) && r.id == n.id
    ensures r == n.(peers := r.peers, next := r.next, matched := r.matched, votersOld := r.votersOld, votersNew := r.votersNew,
                    state := r.state, leader := r.leader, readReady := r.readReady, pendingConfig := r.pendingConfig)
  {
    var e := EntryAt(n, index);
    var r :=
      if e.kind == JointConfig then
        EnsurePeers(n.(votersOld := e.oldVoters, votersNew := e.newVoters), Or(e.oldVoters, e.newVoters))
      else if e.kind == FinalConfig then
        var f := n.(votersOld := e.oldVoters, votersNew := 0);
        if IsVoter(f, f.id) then f else f.(state := Follower, leader := 0, readReady := false)
      else n;
    if index == r.pendingConfig then r.(pendingConfig := 0) else r
  }

  function ApplyFrom(n: NodeState, index: nat, last: nat): (r: NodeState)
    requires Valid(n)
    ensures Valid(r) && r.id == n.id
    ensures r == n.(peers := r.peers, next := r.next, matched := r.matched, votersOld := r.votersOld, votersNew := r.votersNew,
                    state := r.state, leader := r.leader, readReady := r.readReady, pendingConfig := r.pendingConfig)
    decreases last + 1 - index
  {
    if index > last then n else ApplyFrom(ApplyConfiguration(n, index), index + 1, last)
  }

  function ApplyCommittedConfigurations(n: NodeState, first: nat, last: nat): (r: NodeState)
    requires Valid(n)
    ensures Valid(r) && r.id == n.id
    ensures r == n.(peers := r.peers, next := r.next, matched := r.matched, votersOld := r.votersOld, votersNew := r.votersNew,
                    state := r.state, leader := r.leader, readReady := r.readReady, pendingConfig := r.pendingConfig)
  {
    ApplyFrom(n, Max(first, n.baseIndex + 1), last)
  }

  function RebuildFrom(n: NodeState, index: nat): (r: NodeState)
    requires Valid(n)
    ensures Valid(r) && r == n.(peers := r.peers, next := r.next, matched := r.matched, pendingConfig := r.pendingConfig)
    decreases LastIndex(n) + 1 - index
  {
    if index > LastIndex(n) then n
    else
      var e := EntryAt(n, index);
      RebuildFrom(if IsConfig(e) then EnsurePeers(n.(pendingConfig := index), Or(e.oldVoters, e.newVoters)) else n, index + 1)
  }

  /** After a truncation: the pending change is the last one left above the commit index. */
  function RebuildPendingConfig(n: NodeState): (r: NodeState)
    requires Valid(n)
    ensures Valid(r) && r == n.(peers := r.peers, next := r.next, matched := r.matched, pendingConfig := r.pendingConfig)
  {
    RebuildFrom(n.(pendingConfig := 0), Max(n.commit + 1, n.baseIndex + 1))
  }

  predicate ValidNewEntry(n: NodeState, e: Entry) {
    match e.kind
    case Normal =>
      && e.oldVoters == 0 && e.newVoters == 0
      && (e.operation == Legacy || (e.clientId != 0 && e.requestId != 0))
    case Noop =>
      e.command == 0 && e.oldVoters == 0 && e.newVoters == 0 && e.operation == Legacy
    case JointConfig =>
      && n.pendingConfig == 0 && n.votersNew == 0
      && e.oldVoters == n.votersOld && e.oldVoters != 0 && e.newVoters != 0
    case FinalConfig =>
      && n.pendingConfig == 0 && n.votersNew != 0
      && e.oldVoters == n.votersNew && e.newVoters == 0
  }

  // ----- Elections -----

  function AskFrom(n: NodeState, kind: MessageType, term: nat, k: nat): (r: NodeState)
    requires 0 < |n.log| && k <= |n.peers|
    ensures r == n.(outbound := r.outbound)
    decreases |n.peers| - k
  {
    if k == |n.peers| then n
    else
      AskFrom(Emit(n, Blank(kind, n.id, n.peers[k], term).(logIndex := LastIndex(n), logTerm := TermAt(n, LastIndex(n)))), kind, term, k + 1)
  }

  /** Asks every peer, naming the last entry of this node's log. */
  function AskAll(n: NodeState, kind: MessageType, term: nat): (r: NodeState)
    requires 0 < |n.log|
    ensures r == n.(outbound := r.outbound)
  {
    AskFrom(n, kind, term, 0)
  }

  function StartPreVote(n: NodeState): (r: NodeState)
    requires Valid(n)
    ensures Valid(r) && r.id == n.id
  {
    var n1 := n.(elapsed := 0, preVoteTerm := n.term + 1, leader := 0, preVoteMask := NodeBit(n.id));
    var n2 := AskAll(n1, PreVote, n1.preVoteTerm);
    if QuorumMask(n2, n2.preVoteMask) then StartElection(n2) else n2
  }

  function StartElection(n: NodeState): (r: NodeState)
    requires Valid(n)
    ensures Valid(r) && r.id == n.id
  {
    var n1 := Persist(n, HardState(n.term + 1, n.id, n.commit));
    if n1.faulted then n1
    else
      var n2 := n1.(state := Candidate, term := n.term + 1, votedFor := n.id, elapsed := 0,
                    voteMask := NodeBit(n.id), preVoteMask := 0);
      var n3 := AskAll(n2, RequestVote, n2.term);
      if QuorumMask(n3, n3.voteMask) then BecomeLeader(n3) else n3
  }

  /** Stores one entry of this node's own; a node that is a quorum by itself commits it at once. */
  function AppendLocal(n: NodeState, e: Entry): (r: NodeState)
    requires Valid(n)
    ensures Valid(r) && r.id == n.id
  {
    var n1 := Settle(n, S.Append(n.disk, LastIndex(n) + 1, e));
    if n1.faulted then n1
    else
      var n2 := n1.(log := n1.log + [e]);
      if !QuorumMask(n2, NodeBit(n2.id)) then n2
      else
        var n3 := Persist(n2.(commit := LastIndex(n2)), HardState(n2.term, n2.votedFor, LastIndex(n2)));
        if n3.faulted then n3.(commit := n.commit)
        else ApplyCommittedConfigurations(n3, n.commit + 1, n3.commit)
  }

  function ResetPeersFrom(n: NodeState, next: nat, k: nat): (r: NodeState)
    requires k <= |n.peers|
    ensures r == n.(next := r.next, matched := r.matched)
    decreases |n.peers| - k
  {
    if k == |n.peers| then n
    else ResetPeersFrom(n.(next := n.next[n.peers[k] := next], matched := n.matched[n.peers[k] := 0]), next, k + 1)
  }

  function BecomeLeader(n: NodeState): (r: NodeState)
    requires Valid(n)
    ensures Valid(r) && r.id == n.id
  {
    var n1 := AppendLocal(n.(state := Leader, leader := n.id, elapsed := 0), ZERO_ENTRY.(term := n.term, kind := Noop));
    if n1.faulted then n1 else BroadcastAppend(ResetPeersFrom(n1, LastIndex(n1) + 1, 0))
  }

  function Tick(n: NodeState): (r: NodeState)
    requires Valid(n)
    ensures Valid(r) && r.id == n.id
  {
    if n.faulted then n
    else
      var n1 := n.(elapsed := n.elapsed + 1);
      if n1.state == Leader then
        if n1.elapsed >= 3 then BroadcastAppend(n1.(elapsed := 0)) else n1
      else if n1.elapsed >= n1.timeout then StartPreVote(n1)
      else n1
  }

  predicate AsUpToDate(n: NodeState, m: Message)
    requires 0 < |n.log|
  {
    var last := LastIndex(n);
    m.logTerm > TermAt(n, last) || (m.logTerm == TermAt(n, last) && m.logIndex >= last)
  }

  function OnPreVote(n: NodeState, m: Message): (r: NodeState)
    requires Valid(n) && NodeId(m.from)
    ensures Valid(r) && r.id == n.id
  {
    var leaderActive := n.leader != 0 && n.elapsed < n.timeout;
    var grant := IsVoter(n, m.from) && m.term >= n.term + 1 && AsUpToDate(n, m) && !leaderActive;
    Emit(n, Blank(PreVoteResponse, n.id, m.from, m.term).(reject := !grant))
  }

  function OnPreVoteResponse(n: NodeState, m: Message): (r: NodeState)
    requires Valid(n) && NodeId(m.from)
    ensures Valid(r) && r.id == n.id
  {
    if n.state != Leader && IsVoter(n, m.from) && m.term == n.term + 1 && m.term == n.preVoteTerm && !m.reject then
      var n1 := n.(preVoteMask := Or(n.preVoteMask, NodeBit(m.from)));
      if QuorumMask(n1, n1.preVoteMask) then StartElection(n1) else n1
    else n
  }

  function OnVote(n: NodeState, m: Message): (r: NodeState)
    requires Valid(n) && NodeId(m.from)
    ensures Valid(r) && r.id == n.id
  {
    if GrantsVote(n, m) then
      var n1 := Persist(n, HardState(n.term, m.from, n.commit));
      if n1.faulted then n1
      else Emit(n1.(votedFor := m.from, elapsed := 0), Blank(RequestVoteResponse, n.id, m.from, n.term))
    else Emit(n, Blank(RequestVoteResponse, n.id, m.from, n.term).(reject := true))
  }

  predicate GrantsVote(n: NodeState, m: Message)
    requires Valid(n) && NodeId(m.from)
  {
    && IsVoter(n, m.from) && m.term == n.term
    && (n.votedFor == 0 || n.votedFor == m.from) && AsUpToDate(n, m)
  }

  function OnVoteResponse(n: NodeState, m: Message): (r: NodeState)
    requires Valid(n) && NodeId(m.from)
    ensures Valid(r) && r.id == n.id
  {
    if n.state == Candidate && IsVoter(n, m.from) && m.term == n.term && !m.reject then
      var n1 := n.(voteMask := Or(n.voteMask, NodeBit(m.from)));
      if QuorumMask(n1, n1.voteMask) then BecomeLeader(n1) else n1
    else n
  }

  // ----- Following -----

  /** The node once a suffix that conflicts with `e` at index `at` has been dropped. */
  function Cleared(n: NodeState, at: nat, e: Entry): (r: NodeState)
    requires Valid(n) && n.baseIndex < at
    ensures Valid(r) && r.id == n.id
    ensures r == n.(log := r.log, peers := r.peers, next := r.next, matched := r.matched, pendingConfig := r.pendingConfig)
  {
    if InLog(n, at) && TermAt(n, at) != e.term then RebuildPendingConfig(n.(log := n.log[..at - n.baseIndex])) else n
  }

  function AppendAt(n: NodeState, at: nat, e: Entry): (r: NodeState)
    requires Valid(n)
    ensures Valid(r) && r.id == n.id
  {
    if at != LastIndex(n) + 1 then n
    else
      var n1 := Settle(n, S.Append(n.disk, at, e));
      if n1.faulted then n1
      else
        var n2 := n1.(log := n1.log + [e]);
        if IsConfig(e) then EnsurePeers(n2.(pendingConfig := at), Or(e.oldVoters, e.newVoters)) else n2
  }

  /** Puts `e` at index `at`, dropping a conflicting suffix first; an entry already there stays. */
  function StoreEntry(n: NodeState, at: nat, e: Entry): (r: NodeState)
    requires Valid(n) && n.baseIndex < at
    ensures Valid(r) && r.id == n.id
  {
    AppendAt(Cleared(n, at, e), at, e)
  }

  /** Index up to which the sender's log is known to agree after this message. */
  function MatchedIndex(m: Message): nat {
    if m.hasEntry then m.logIndex + 1 else m.logIndex
  }

  function FollowCommit(n: NodeState, m: Message): (r: NodeState)
    requires Valid(n)
    ensures Valid(r) && r.id == n.id
  {
    if m.commit > n.commit && MatchedIndex(m) > n.commit then
      var commit := Min(m.commit, MatchedIndex(m));
      var n1 := Persist(n, HardState(n.term, n.votedFor, commit));
      if n1.faulted then n1
      else ApplyCommittedConfigurations(n1.(commit := commit), n.commit + 1, commit)
    else n
  }

  function RespondAppend(n: NodeState, m: Message, reject: bool, acked: nat): NodeState {
    Emit(n, Blank(AppendResponse, n.id, m.from, n.term).(reject := reject, acked := acked, context := m.context))
  }

  predicate RejectsAppend(n: NodeState, m: Message)
    requires 0 < |n.log|
  {
    || m.term < n.term || !InLog(n, m.logIndex) || TermAt(n, m.logIndex) != m.logTerm
    || (m.hasEntry && m.logIndex == LastIndex(n) && !ValidNewEntry(n, m.entry))
  }

  function OnAppend(n: NodeState, m: Message): (r: NodeState)
    requires Valid(n) && NodeId(m.from)
    ensures Valid(r) && r.id == n.id
  {
    if RejectsAppend(n, m) then RespondAppend(n, m, true, LastIndex(n))
    else AcceptAppend(n.(state := Follower, leader := m.from, elapsed := 0), m)
  }

  function AcceptAppend(n: NodeState, m: Message): (r: NodeState)
    requires Valid(n) && n.baseIndex <= m.logIndex
    ensures Valid(r) && r.id == n.id
  {
    var n1 := if m.hasEntry then StoreEntry(n, m.logIndex + 1, m.entry) else n;
    if n1.faulted then n1 else AnswerAppend(n1, m)
  }

  function AnswerAppend(n: NodeState, m: Message): (r: NodeState)
    requires Valid(n)
    ensures Valid(r) && r.id == n.id
  {
    var n1 := FollowCommit(n, m);
    if n1.faulted then n1 else RespondAppend(n1, m, false, MatchedIndex(m))
  }

  // ----- Leading -----

  function AckedFrom(n: NodeState, index: nat, k: nat, mask: nat): nat
    requires Valid(n) && k <= |n.peers|
    decreases |n.peers| - k
  {
    if k == |n.peers| then mask
    else AckedFrom(n, index, k + 1, if Lookup(n.matched, n.peers[k]) >= index then Or(mask, NodeBit(n.peers[k])) else mask)
  }

  /** The nodes known to hold `index`: this one, and every peer whose match index reaches it. */
  function AckedMask(n: NodeState, index: nat): nat
    requires Valid(n)
  {
    AckedFrom(n, index, 0, NodeBit(n.id))
  }

  predicate Committable(n: NodeState, index: nat)
    requires Valid(n)
  {
    TermAt(n, index) == n.term && CanCommitIndex(n, index, AckedMask(n, index))
  }

  /** The highest index from `index` down that may be committed now, if it is above the commit index. */
  function FindCommittable(n: NodeState, index: nat): (r: Option<nat>)
    requires Valid(n)
    ensures r.Some? ==> n.commit < r.value <= index && Committable(n, r.value)
    decreases index
  {
    if index <= n.commit then None
    else if Committable(n, index) then Some(index)
    else FindCommittable(n, index - 1)
  }

  function CommitAt(n: NodeState, index: nat): (r: NodeState)
    requires Valid(n)
    ensures Valid(r) && r.id == n.id
  {
    var n1 := Persist(n, HardState(n.term, n.votedFor, index));
    if n1.faulted then n1
    else Announce(ApplyCommittedConfigurations(n1.(commit := index), n.commit + 1, index))
  }

  /** A leader that is still one after a commit tells its followers. */
  function Announce(n: NodeState): (r: NodeState)
    requires Valid(n)
    ensures Valid(r) && r.id == n.id
  {
    if n.state == Leader then BroadcastAppend(n) else n
  }

  function CountReadAck(n: NodeState, m: Message): (r: NodeState)
    requires Valid(n) && NodeId(m.from)
    ensures r == n.(readAckMask := r.readAckMask, readIndex := r.readIndex, readReady := r.readReady)
  {
    if n.state == Leader && m.term == n.term && !m.reject && m.context != 0 && m.context == n.readContext && IsVoter(n, m.from) then
      var n1 := n.(readAckMask := Or(n.readAckMask, NodeBit(m.from)));
      if QuorumMask(n1, n1.readAckMask) then n1.(readIndex := n1.commit, readReady := true) else n1
    else n
  }

  function OnAppendResponse(n: NodeState, m: Message): (r: NodeState)
    requires Valid(n) && NodeId(m.from)
    ensures Valid(r) && r.id == n.id
  {
    TakeResponse(CountReadAck(n, m), m)
  }

  function TakeResponse(n: NodeState, m: Message): (r: NodeState)
    requires Valid(n)
    ensures Valid(r) && r.id == n.id
  {
    if n.state != Leader || m.term != n.term || m.acked > LastIndex(n) then n
    else if m.reject then Backtrack(n, m.from)
    else Confirm(RecordMatch(n, m.from, m.acked), m.from)
  }

  /** After a rejection the leader tries one entry earlier. */
  function Backtrack(n: NodeState, peer: Id): (r: NodeState)
    requires Valid(n)
    ensures Valid(r) && r.id == n.id
  {
    var next := Lookup(n.next, peer);
    AppendToContext(if next > 1 then n.(next := n.next[peer := next - 1]) else n, peer, 0)
  }

  function RecordMatch(n: NodeState, peer: Id, index: nat): NodeState {
    n.(matched := n.matched[peer := index], next := n.next[peer := index + 1])
  }

  function AdvanceCommit(n: NodeState): (r: NodeState)
    requires Valid(n)
    ensures Valid(r) && r.id == n.id
  {
    var found := FindCommittable(n, LastIndex(n));
    if found.Some? then CommitAt(n, found.value) else n
  }

  function Confirm(n: NodeState, peer: Id): (r: NodeState)
    requires Valid(n)
    ensures Valid(r) && r.id == n.id
  {
    var n1 := AdvanceCommit(n);
    if n1.state != Leader || Lookup(n1.next, peer) > LastIndex(n1) then n1 else AppendToContext(n1, peer, 0)
  }

  // ----- Snapshots -----

  /** Publishes a durable snapshot, then drops the log prefix it covers. */
  function Compact(n: NodeState, index: nat, state: seq<Byte>): (r: NodeState)
    requires Valid(n)
    ensures Valid(r) && r.id == n.id
  {
    if index <= n.baseIndex || index > n.applied || !InLog(n, index) then n
    else
      var snapshot := Snapshot(index, TermAt(n, index), state, n.votersOld, n.votersNew);
      var saved := S.SaveSnapshot(n.disk, snapshot);
      if !saved.ok then FailStorage(n.(disk := saved.disk))
      else
        var fenced := S.CompactLog(saved.disk, index);
        if !fenced.ok then FailStorage(n.(disk := fenced.disk))
        else n.(disk := fenced.disk, log := n.log[index - n.baseIndex..], baseIndex := index,
                baseTerm := snapshot.lastTerm, snapshot := snapshot)
  }

  predicate Compacts(n: NodeState, index: nat, state: seq<Byte>)
    requires Valid(n)
  {
    n.baseIndex < index && Compact(n, index, state).baseIndex == index
  }

  predicate RejectsSnapshot(n: NodeState, m: Message) {
    || m.term < n.term || m.snapshot.lastIndex < n.baseIndex || m.snapshot.oldVoters == 0
    || (m.snapshot.lastIndex == n.baseIndex && m.snapshot.lastTerm != n.baseTerm)
  }

  /** Replaces the prefix up to the snapshot, keeping the suffix when the log holds the
      snapshot's last entry. */
  function TakeSnapshot(n: NodeState, s: Snapshot): (r: NodeState)
    requires Valid(n)
    ensures Valid(r) && r.id == n.id
  {
    var saved := S.SaveSnapshot(n.disk, s);
    if !saved.ok then FailStorage(n.(disk := saved.disk))
    else
      var fenced := S.CompactLog(saved.disk, s.lastIndex);
      if !fenced.ok then FailStorage(n.(disk := fenced.disk))
      else
        var log := if InLog(n, s.lastIndex) && TermAt(n, s.lastIndex) == s.lastTerm then n.log[s.lastIndex - n.baseIndex..]
                   else [ZERO_ENTRY.(term := s.lastTerm)];
        n.(disk := fenced.disk, log := log, baseIndex := s.lastIndex, baseTerm := s.lastTerm, snapshot := s,
           votersOld := s.oldVoters, votersNew := s.newVoters,
           commit := Max(n.commit, s.lastIndex), applied := Max(n.applied, s.lastIndex))
  }

  function OnInstallSnapshot(n: NodeState, m: Message): (r: NodeState)
    requires Valid(n)
    ensures Valid(r) && r.id == n.id
  {
    var reject := RejectsSnapshot(n, m);
    var n1 := if !reject && m.snapshot.lastIndex > n.baseIndex then TakeSnapshot(n, m.snapshot) else n;
    if n1.faulted then n1
    else
      var n2 := if reject then n1 else n1.(state := Follower, leader := m.from, elapsed := 0);
      Emit(n2, Blank(InstallSnapshotResponse, n2.id, m.from, n2.term).(reject := reject, acked := n2.baseIndex))
  }

  function OnInstallSnapshotResponse(n: NodeState, m: Message): (r: NodeState)
    requires Valid(n) && NodeId(m.from)
    ensures Valid(r) && r.id == n.id
  {
    if n.state != Leader || m.term != n.term || m.reject || !IsVoter(n, m.from) then n
    else
      var n1 := if m.acked > Lookup(n.matched, m.from)
                then n.(matched := n.matched[m.from := m.acked], next := n.next[m.from := m.acked + 1]) else n;
      if Lookup(n1.next, m.from) <= LastIndex(n1) then AppendToContext(n1, m.from, 0) else n1
  }

  // ----- Delivery -----

  /** A message of a higher term, other than a pre-vote, makes the node adopt that term first. */
  function AdoptTerm(n: NodeState, m: Message): (r: NodeState)
    requires Valid(n)
    ensures Valid(r) && r.id == n.id
  {
    if m.kind != PreVote && m.kind != PreVoteResponse && m.term > n.term then
      var n1 := Persist(n, HardState(m.term, 0, n.commit));
      if n1.faulted then n1
      else n1.(state := Follower, term := m.term, votedFor := 0, leader := 0, readReady := false)
    else n
  }

  function Dispatch(n: NodeState, m: Message): (r: NodeState)
    requires Valid(n) && NodeId(m.from)
    ensures Valid(r) && r.id == n.id
  {
    match m.kind
    case PreVote => OnPreVote(n, m)
    case PreVoteResponse => OnPreVoteResponse(n, m)
    case RequestVote => OnVote(n, m)
    case RequestVoteResponse => OnVoteResponse(n, m)
    case Append => OnAppend(n, m)
    case AppendResponse => OnAppendResponse(n, m)
    case InstallSnapshot => OnInstallSnapshot(n, m)
    case InstallSnapshotResponse => OnInstallSnapshotResponse(n, m)
    case TimeoutNow =>
      if n.state == Follower && m.term == n.term && m.from == n.leader then StartElection(n) else n
  }

  function Step(n: NodeState, m: Message): (r: NodeState)
    requires Valid(n) && NodeId(m.from)
    ensures Valid(r) && r.id == n.id
  {
    if n.faulted then n
    else
      var n1 := AdoptTerm(n, m);
      if n1.faulted then n1 else Dispatch(n1, m)
  }

  // ----- Client calls -----

  predicate CanPropose(n: NodeState) {
    n.state == Leader && !n.faulted
  }

  function ProposeEntry(n: NodeState, e: Entry): (r: NodeState)
    requires Valid(n)
    ensures Valid(r) && r.id == n.id
  {
    var n1 := AppendLocal(n, e);
    if n1.faulted then n1 else BroadcastAppend(n1)
  }

  function Propose(n: NodeState, command: nat): (r: NodeState)
    requires Valid(n)
    ensures Valid(r) && r.id == n.id
  {
    if CanPropose(n) then ProposeEntry(n, ZERO_ENTRY.(term := n.term, command := command)) else n
  }

  function ProposeRequest(n: NodeState, op: CommandOp, client: nat, request: nat, key: nat, value: nat): (r: NodeState)
    requires Valid(n)
    ensures Valid(r) && r.id == n.id
  {
    if !CanPropose(n) || client == 0 || request == 0 || op == Legacy then n
    else ProposeEntry(n, ZERO_ENTRY.(term := n.term, operation := op, clientId := client, requestId := request, key := key, value := value))
  }

  /** The mask of a list of voters, unless the list is empty or names a node twice. */
  function VoterMaskFrom(ids: seq<Id>, k: nat, mask: nat): Option<nat>
    requires k <= |ids| && forall id :: id in ids ==> NodeId(id)
    decreases |ids| - k
  {
    if k == |ids| then Some(mask)
    else if And(mask, NodeBit(ids[k])) != 0 then None
    else VoterMaskFrom(ids, k + 1, Or(mask, NodeBit(ids[k])))
  }

  function VoterMask(ids: seq<Id>): Option<nat>
    requires forall id :: id in ids ==> NodeId(id)
  {
    if |ids| == 0 then None else VoterMaskFrom(ids, 0, 0)
  }

  /** Appends the joint configuration; the change stays pending until it commits. */
  function ProposeJoint(n: NodeState, ids: seq<Id>): (r: NodeState)
    requires Valid(n) && forall id :: id in ids ==> NodeId(id)
    ensures Valid(r) && r.id == n.id
  {
    var mask := VoterMask(ids);
    if mask.None? || !CanPropose(n) || n.votersNew != 0 || n.pendingConfig != 0 then n
    else
      var n1 := AppendLocal(EnsurePeers(n, mask.value), ZERO_ENTRY.(term := n.term, kind := JointConfig, oldVoters := n.votersOld, newVoters := mask.value));
      if n1.faulted then n1 else BroadcastAppend(n1.(pendingConfig := LastIndex(n1)))
  }

  function ProposeFinal(n: NodeState): (r: NodeState)
    requires Valid(n)
    ensures Valid(r) && r.id == n.id
  {
    if !CanPropose(n) || n.votersNew == 0 || n.pendingConfig != 0 then n
    else
      var n1 := AppendLocal(n, ZERO_ENTRY.(term := n.term, kind := FinalConfig, oldVoters := n.votersNew));
      if n1.faulted then n1 else BroadcastAppend(n1.(pendingConfig := LastIndex(n1)))
  }

  predicate CanStartRead(n: NodeState, context: nat)
    requires Valid(n)
  {
    && n.state == Leader && !n.faulted && context != 0 && n.commit != 0
    && (TermAt(n, n.commit) == n.term || QuorumMask(n, NodeBit(n.id)))
  }

  function AppendAllFrom(n: NodeState, context: nat, k: nat): (r: NodeState)
    requires Valid(n) && k <= |n.peers|
    ensures r == n.(next := r.next, outbound := r.outbound)
    decreases |n.peers| - k
  {
    if k == |n.peers| then n else AppendAllFrom(AppendToContext(n, n.peers[k], context), context, k + 1)
  }

  function OpenBarrier(n: NodeState, context: nat): (r: NodeState)
    requires Valid(n)
    ensures Valid(r) && r.id == n.id
  {
    var alone := QuorumMask(n, NodeBit(n.id));
    n.(readContext := context, readAckMask := NodeBit(n.id), readReady := alone,
       readIndex := if alone then n.commit else n.readIndex)
  }

  function StartReadIndex(n: NodeState, context: nat): (r: NodeState)
    requires Valid(n)
    ensures Valid(r) && r.id == n.id
  {
    if !CanStartRead(n, context) then n else AppendAllFrom(OpenBarrier(n, context), context, 0)
  }

  function ReadIndex(n: NodeState, context: nat): Option<nat> {
    if n.state != Leader || context != n.readContext || !n.readReady then None else Some(n.readIndex)
  }

  function TransferLeadership(n: NodeState, target: Id): (r: NodeState)
    requires Valid(n) && NodeId(target)
    ensures Valid(r) && r.id == n.id
  {
    if n.state != Leader || target == n.id || !IsVoter(n, target) then n
    else if Lookup(n.matched, target) < LastIndex(n) then AppendToContext(n, target, 0)
    else Emit(n, Blank(TimeoutNow, n.id, target, n.term))
  }

  function Drain(n: NodeState): NodeState {
    n.(outbound := [])
  }

  function AppliedFrom(n: NodeState, index: nat): seq<Entry>
    decreases n.commit - index
  {
    if index >= n.commit then []
    else (if EntryAt(n, index + 1).kind == Normal then [EntryAt(n, index + 1)] else []) + AppliedFrom(n, index + 1)
  }

  /** The entries a call to apply hands out, and the node after it. */
  function ApplyEntries(n: NodeState): (r: NodeState)
    requires Valid(n)
    ensures Valid(r) && r.id == n.id
  {
    n.(applied := Max(n.applied, n.commit))
  }

  // ----- Construction and recovery -----

  function MaskFrom(peers: seq<Id>, k: nat, mask: nat): nat
    requires k <= |peers| && forall p :: p in peers ==> NodeId(p)
    decreases |peers| - k
  {
    if k == |peers| then mask else MaskFrom(peers, k + 1, Or(mask, NodeBit(peers[k])))
  }

  predicate Distinct(id: Id, peers: seq<Id>) {
    && id !in peers
    && (forall i, j :: 0 <= i < j < |peers| ==> peers[i] != peers[j])
  }

  function NewNode(id: Id, peers: seq<Id>, timeout: nat, disk: S.Disk): (r: NodeState)
    requires NodeId(id) && (forall p :: p in peers ==> NodeId(p)) && Distinct(id, peers)
    ensures Valid(r) && r.id == id
  {
    NodeState(id, peers, Follower, 0, 0, 0, [ZERO_ENTRY], 0, 0, 0, 0, timeout, 0, 0, 0, 0, map[], map[], [], false,
              0, 0, 0, false, NO_SNAPSHOT, MaskFrom(peers, 0, NodeBit(id)), 0, 0, disk)
  }

  datatype Replay = Replay(ok: bool, voters: Voters, pending: nat)

  /** One entry of the replay that rebuilds configuration state from the log. */
  function ReplayEntry(n: NodeState, index: nat, c: Replay): Replay {
    var e := EntryAt(n, index);
    match e.kind
    case Normal => c.(ok := e.oldVoters == 0 && e.newVoters == 0)
    case Noop => c.(ok := e.command == 0 && e.oldVoters == 0 && e.newVoters == 0 && e.operation == Legacy)
    case JointConfig =>
      if c.pending != 0 || c.voters.new' != 0 || e.oldVoters != c.voters.old' || e.oldVoters == 0 || e.newVoters == 0
      then c.(ok := false)
      else if index <= n.commit then c.(voters := Voters(e.oldVoters, e.newVoters))
      else c.(pending := index)
    case FinalConfig =>
      if c.pending != 0 || c.voters.new' == 0 || e.oldVoters != c.voters.new' || e.newVoters != 0
      then c.(ok := false)
      else if index <= n.commit then c.(voters := Voters(e.oldVoters, 0))
      else c.(pending := index)
  }

  function ReplayTo(n: NodeState, last: nat): Replay
    decreases last
  {
    if last <= n.baseIndex then Replay(true, Voters(n.votersOld, n.votersNew), 0)
    else
      var c := ReplayTo(n, last - 1);
      if c.ok then ReplayEntry(n, last, c) else c
  }

  /** The peers known after replaying up to `last`: every node a replayed configuration names. */
  function RestoredPeers(n: NodeState, last: nat): (r: NodeState)
    requires Valid(n)
    ensures Valid(r) && r == n.(peers := r.peers, next := r.next, matched := r.matched)
    decreases last
  {
    if last <= n.baseIndex then n
    else if !ReplayTo(n, last).ok then RestoredPeers(n, last - 1)
    else
      var e := EntryAt(n, last);
      EnsurePeers(RestoredPeers(n, last - 1), Or(e.oldVoters, e.newVoters))
  }

  /** Rebuilds voters and pending change from the log, or fail-stops on a log no run produces. */
  function RestoreConfiguration(n: NodeState): (r: NodeState)
    requires Valid(n)
    ensures Valid(r) && r.id == n.id
  {
    var c, n1 := ReplayTo(n, LastIndex(n)), RestoredPeers(n, LastIndex(n));
    if !c.ok then FailStorage(n1)
    else n1.(votersOld := c.voters.old', votersNew := c.voters.new', pendingConfig := c.pending)
  }

  function RecoveredNode(id: Id, peers: seq<Id>, timeout: nat, disk: S.Disk, hard: HardState, log: seq<Entry>): (r: NodeState)
    requires NodeId(id) && (forall p :: p in peers ==> NodeId(p)) && Distinct(id, peers)
    ensures Valid(r) && r.id == id
  {
    var n := NewNode(id, peers, timeout, disk).(term := hard.term, votedFor := hard.votedFor, commit := hard.commit,
                                               log := if |log| > 0 then log else [ZERO_ENTRY]);
    if n.commit > LastIndex(n) then FailStorage(n) else RestoreConfiguration(n)
  }

  function RecoveredNodeWithSnapshot(id: Id, peers: seq<Id>, timeout: nat, disk: S.Disk, hard: HardState,
                                     s: Snapshot, suffix: seq<Entry>): (r: NodeState)
    requires NodeId(id) && (forall p :: p in peers ==> NodeId(p)) && Distinct(id, peers)
    ensures Valid(r) && r.id == id
  {
    var n := NewNode(id, peers, timeout, disk).(term := hard.term, votedFor := hard.votedFor,
                                               baseIndex := s.lastIndex, baseTerm := s.lastTerm, snapshot := s,
                                               votersOld := s.oldVoters, votersNew := s.newVoters);
    if n.votersOld == 0 then FailStorage(n)
    else
      var n1 := EnsurePeers(n, Or(n.votersOld, n.votersNew)).(log := [ZERO_ENTRY.(term := s.lastTerm)] + suffix,
                                                             commit := Max(hard.commit, s.lastIndex), applied := s.lastIndex);
      if n1.commit > LastIndex(n1) then FailStorage(n1) else RestoreConfiguration(n1)
  }
}
