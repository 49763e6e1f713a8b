/**
 * The consensus node as the program runs it: a reference to one record whose fields the methods
 * update in place, with the source's loops and early returns.  Each method is proved against the
 * function that says what its call makes of the record.
 */
module RaftNode {
  import opened Quorums
  import opened Bits
  import opened RaftTypes
  import S = StableStore
  import M = NodeModel
  import D = NodeDurability
  import P = NodePromises

  class Node {
    var n: M.NodeState

    // ----- Voters and quorums -----

    /** The voters in force once the entries from `first` to `last` are taken into account. */
    method VotersOver(first: nat, last: nat) returns (v: M.Voters)
      ensures v == M.VotersFrom(n, first, last, M.Voters(n.votersOld, n.votersNew))
    {
      v := M.Voters(n.votersOld, n.votersNew);
      var index := first;
      while index <= last
        invariant M.VotersFrom(n, index, last, v) == M.VotersFrom(n, first, last, M.Voters(n.votersOld, n.votersNew))
        decreases last + 1 - index
      {
        var e := M.EntryAt(n, index);
        if e.kind == JointConfig { v := M.Voters(e.oldVoters, e.newVoters); }
        index := index + 1;
      }
    }

    method EffectiveVoters() returns (v: M.Voters)
      requires M.Valid(n)
      ensures v == M.EffectiveVoters(n)
    {
      hide M.VotersFrom;
      v := VotersOver(Max(n.commit + 1, n.baseIndex + 1), M.LastIndex(n));
    }

    method QuorumMask(mask: nat) returns (r: bool)
      requires M.Valid(n)
      ensures r == M.QuorumMask(n, mask)
    {
      hide M.EffectiveVoters, M.Carries;
      var v := EffectiveVoters();
      r := Carried(v, mask);
    }

    static method Carried(v: M.Voters, mask: nat) returns (r: bool)
      ensures r == M.Carries(v, mask)
    {
      hide MajorityMask;
      r := ComputeMajorityMask(v.old', mask);
      if r && v.new' != 0 { r := ComputeMajorityMask(v.new', mask); }
    }

    method IsVoter(id: Id) returns (r: bool)
      requires M.Valid(n) && NodeId(id)
      ensures r == M.IsVoter(n, id)
    {
      hide M.EffectiveVoters, And, Or, NodeBit;
      var v := EffectiveVoters();
      r := And(Or(v.old', v.new'), NodeBit(id)) != 0;
    }

    method CanCommitIndex(index: nat, acked: nat) returns (r: bool)
      ensures r == M.CanCommitIndex(n, index, acked)
    {
      hide M.VotersFrom, M.Carries;
      var v := VotersOver(n.commit + 1, index);
      r := Carried(v, acked);
    }

    // ----- Sending and storing -----

    method Send(m: Message)
      modifies this
      ensures n == M.Emit(old(n), m)
    {
      n := n.(outbound := n.outbound + [m]);
    }

    method FailStorage()
      modifies this
      ensures n == M.FailStorage(old(n))
    {
      n := n.(faulted := true, state := Follower, leader := 0);
      n := n.(outbound := []);
    }

    /** Takes the outcome of one write to the store. */
    method Settle(a: S.Attempt) returns (ok: bool)
      requires !n.faulted
      modifies this
      ensures n == M.Settle(old(n), a) && ok == !n.faulted
    {
      n, ok := n.(disk := a.disk), a.ok;
      if !ok { FailStorage(); }
    }

    method PersistHardState(h: HardState) returns (ok: bool)
      requires !n.faulted
      modifies this
      ensures n == M.Persist(old(n), h) && ok == !n.faulted
    {
      hide S.SaveHardState;
      ok := Settle(S.SaveHardState(n.disk, h));
    }

    // ----- Replication -----

    /** Sends `p` the entry it is waiting for, or a snapshot when that entry is compacted away. */
    method AppendToContext(p: Id, context: nat)
      requires 0 < |n.log|
      modifies this
      ensures n == M.AppendToContext(old(n), p, context)
    {
      if Lookup(n.next, p) <= n.baseIndex {
        Send(Blank(InstallSnapshot, n.id, p, n.term).(snapshot := n.snapshot));
        return;
      }
      var next := Lookup(n.next, p);
      if next > M.LastIndex(n) + 1 {
        next := M.LastIndex(n) + 1;
        n := n.(next := n.next[p := next]);
      }
      var m := Blank(Append, n.id, p, n.term).(logIndex := next - 1, logTerm := M.TermAt(n, next - 1),
                                               commit := n.commit, context := context);
      if next < M.LastIndex(n) + 1 { m := m.(entry := M.EntryAt(n, next), hasEntry := true); }
      Send(m);
    }

    /** Brings every voter among the peers up to date. */
    method BroadcastAppend()
      requires M.Valid(n)
      modifies this
      ensures n == M.BroadcastAppend(old(n))
    {
      hide M.AppendToContext, M.IsVoter;
      var k := 0;
      while k < |n.peers|
        invariant M.Valid(n) && k <= |n.peers|
        invariant M.BroadcastFrom(n, k) == M.BroadcastFrom(old(n), 0)
      {
        var voter := IsVoter(n.peers[k]);
        if voter { AppendToContext(n.peers[k], 0); }
        k := k + 1;
      }
    }

    // ----- Configurations -----

    method IsPeer(id: Id) returns (found: bool)
      ensures found == (id in n.peers)
    {
      found := false;
      var k := 0;
      while k < |n.peers|
        invariant k <= |n.peers| && found == (id in n.peers[..k])
      {
        found := found || n.peers[k] == id;
        k := k + 1;
      }
      assert n.peers[..k] == n.peers;
    }

    /** Makes every node of the mask, other than this one, a peer. */
    method EnsurePeers(mask: nat)
      requires M.Valid(n)
      modifies this
      ensures n == M.EnsurePeers(old(n), mask)
    {
      hide And, NodeBit;
      var id := 1;
      while id <= WIDTH
        invariant M.Valid(n) && 1 <= id <= WIDTH + 1
        invariant M.EnsureFrom(n, mask, id) == M.EnsureFrom(old(n), mask, 1)
      {
        if id != n.id && And(mask, NodeBit(id)) != 0 { AddPeer(id); }
        id := id + 1;
      }
    }

    /** Adds a peer unless it is one already. */
    method AddPeer(id: Id)
      requires M.Valid(n) && NodeId(id)
      modifies this
      ensures M.Valid(n)
      ensures n == if id in old(n).peers then old(n)
                   else old(n).(peers := old(n).peers + [id], next := old(n).next[id := M.LastIndex(old(n)) + 1], matched := old(n).matched[id := 0])
    {
      var found := IsPeer(id);
      if !found {
        n := n.(peers := n.peers + [id]);
        n := n.(next := n.next[id := M.LastIndex(n) + 1], matched := n.matched[id := 0]);
      }
    }

    method ApplyConfiguration(index: nat)
      requires M.Valid(n)
      modifies this
      ensures n == M.ApplyConfiguration(old(n), index)
    {
      hide M.EnsurePeers, M.IsVoter, Or;
      var e := M.EntryAt(n, index);
      if e.kind == JointConfig {
        n := n.(votersOld := e.oldVoters, votersNew := e.newVoters);
        EnsurePeers(Or(e.oldVoters, e.newVoters));
      } else if e.kind == FinalConfig {
        n := n.(votersOld := e.oldVoters, votersNew := 0);
        var voter := IsVoter(n.id);
        if !voter { n := n.(state := Follower, leader := 0, readReady := false); }
      }
      if index == n.pendingConfig { n := n.(pendingConfig := 0); }
    }

    method ApplyCommittedConfigurations(first: nat, last: nat)
      requires M.Valid(n)
      modifies this
      ensures n == M.ApplyCommittedConfigurations(old(n), first, last)
    {
      hide M.ApplyConfiguration;
      var index := Max(first, n.baseIndex + 1);
      ghost var start := index;
      while index <= last
        invariant M.Valid(n)
        invariant M.ApplyFrom(n, index, last) == M.ApplyFrom(old(n), start, last)
        decreases last + 1 - index
      {
        ApplyConfiguration(index);
        index := index + 1;
      }
    }

    /** After a truncation: the pending change is the last one left above the commit index. */
    method RebuildPendingConfig()
      requires M.Valid(n)
      modifies this
      ensures n == M.RebuildPendingConfig(old(n))
    {
      hide M.EnsurePeers, Or;
      n := n.(pendingConfig := 0);
      var index := Max(n.commit + 1, n.baseIndex + 1);
      ghost var start, begun := index, n;
      while index <= M.LastIndex(n)
        invariant M.Valid(n) && M.LastIndex(n) == M.LastIndex(begun)
        invariant M.RebuildFrom(n, index) == M.RebuildFrom(begun, start)
        decreases M.LastIndex(begun) + 1 - index
      {
        var e := M.EntryAt(n, index);
        if e.kind == JointConfig || e.kind == FinalConfig {
          n := n.(pendingConfig := index);
          EnsurePeers(Or(e.oldVoters, e.newVoters));
        }
        index := index + 1;
      }
    }

    // ----- Elections -----

    method AskAll(kind: MessageType, term: nat)
      requires 0 < |n.log|
      modifies this
      ensures n == M.AskAll(old(n), kind, term)
    {
      var last, k := M.LastIndex(n), 0;
      while k < |n.peers|
        invariant 0 < |n.log| && last == M.LastIndex(n) && k <= |n.peers|
        invariant M.AskFrom(n, kind, term, k) == M.AskFrom(old(n), kind, term, 0)
      {
        Send(Blank(kind, n.id, n.peers[k], term).(logIndex := last, logTerm := M.TermAt(n, last)));
        k := k + 1;
      }
    }

    method StartPreVote()
      requires M.Valid(n) && !n.faulted
      modifies this
      ensures n == M.StartPreVote(old(n))
    {
      hide M.AskFrom, M.QuorumMask, M.StartElection, NodeBit;
      n := n.(elapsed := 0, preVoteTerm := n.term + 1, leader := 0, preVoteMask := NodeBit(n.id));
      AskAll(PreVote, n.preVoteTerm);
      var won := QuorumMask(n.preVoteMask);
      if won { StartElection(); }
    }

    method StartElection()
      requires M.Valid(n) && !n.faulted
      modifies this
      ensures n == M.StartElection(old(n))
    {
      hide M.AskFrom, M.QuorumMask, M.BecomeLeader, NodeBit, S.SaveHardState;
      var nextTerm := n.term + 1;
      var ok := PersistHardState(HardState(nextTerm, n.id, n.commit));
      if !ok { return; }
      n := n.(state := Candidate, term := nextTerm, votedFor := n.id, elapsed := 0);
      n := n.(voteMask := NodeBit(n.id), preVoteMask := 0);
      AskAll(RequestVote, n.term);
      var won := QuorumMask(n.voteMask);
      if won { BecomeLeader(); }
    }

    /** Stores one entry of this node's own; a node that is a quorum by itself commits it at once. */
    method AppendLocal(e: Entry) returns (ok: bool)
      requires M.Valid(n) && !n.faulted
      modifies this
      ensures n == M.AppendLocal(old(n), e) && ok == !n.faulted
    {
      hide M.QuorumMask, M.ApplyCommittedConfigurations, NodeBit, S.Append, S.SaveHardState;
      ok := Settle(S.Append(n.disk, M.LastIndex(n) + 1, e));
      if !ok { return; }
      n := n.(log := n.log + [e]);
      var alone := QuorumMask(NodeBit(n.id));
      if alone {
        var previous := n.commit;
        n := n.(commit := M.LastIndex(n));
        ok := PersistHardState(HardState(n.term, n.votedFor, n.commit));
        if !ok {
          n := n.(commit := previous);
          return;
        }
        ApplyCommittedConfigurations(previous + 1, n.commit);
      }
    }

    method BecomeLeader()
      requires M.Valid(n) && !n.faulted
      modifies this
      ensures n == M.BecomeLeader(old(n))
    {
      hide M.AppendLocal, M.BroadcastFrom;
      n := n.(state := Leader, leader := n.id, elapsed := 0);
      var ok := AppendLocal(ZERO_ENTRY.(term := n.term, kind := Noop));
      if !ok { return; }
      ResetPeers(M.LastIndex(n) + 1);
      BroadcastAppend();
    }

    /** Forgets what was known of the peers: each will first be sent the entry at `next`. */
    method ResetPeers(next: nat)
      modifies this
      ensures n == M.ResetPeersFrom(old(n), next, 0)
    {
      var k := 0;
      while k < |n.peers|
        invariant k <= |n.peers|
        invariant M.ResetPeersFrom(n, next, k) == M.ResetPeersFrom(old(n), next, 0)
      {
        n := n.(next := n.next[n.peers[k] := next], matched := n.matched[n.peers[k] := 0]);
        k := k + 1;
      }
    }

    method Tick()
      requires M.Valid(n)
      modifies this
      ensures n == M.Tick(old(n))
    {
      hide M.BroadcastFrom, M.StartPreVote;
      if n.faulted { return; }
      n := n.(elapsed := n.elapsed + 1);
      if n.state == Leader {
        if n.elapsed >= 3 {
          n := n.(elapsed := 0);
          BroadcastAppend();
        }
        return;
      }
      if n.elapsed >= n.timeout { StartPreVote(); }
    }

    method OnPreVote(m: Message)
      requires M.Valid(n) && NodeId(m.from)
      modifies this
      ensures n == M.OnPreVote(old(n), m)
    {
      hide M.IsVoter;
      var last := M.LastIndex(n);
      var upToDate := m.logTerm > M.TermAt(n, last) || (m.logTerm == M.TermAt(n, last) && m.logIndex >= last);
      var leaderActive := n.leader != 0 && n.elapsed < n.timeout;
      var voter := IsVoter(m.from);
      var grant := voter && m.term >= n.term + 1 && upToDate && !leaderActive;
      Send(Blank(PreVoteResponse, n.id, m.from, m.term).(reject := !grant));
    }

    method OnPreVoteResponse(m: Message)
      requires M.Valid(n) && NodeId(m.from) && !n.faulted
      modifies this
      ensures n == M.OnPreVoteResponse(old(n), m)
    {
      hide M.IsVoter, M.QuorumMask, M.StartElection, Or, NodeBit;
      var voter := IsVoter(m.from);
      if n.state != Leader && voter && m.term == n.term + 1 && m.term == n.preVoteTerm && !m.reject {
        n := n.(preVoteMask := Or(n.preVoteMask, NodeBit(m.from)));
        var won := QuorumMask(n.preVoteMask);
        if won { StartElection(); }
      }
    }

    method OnVote(m: Message)
      requires M.Valid(n) && NodeId(m.from) && !n.faulted
      modifies this
      ensures n == M.OnVote(old(n), m)
    {
      hide M.IsVoter, S.SaveHardState;
      var last := M.LastIndex(n);
      var upToDate := m.logTerm > M.TermAt(n, last) || (m.logTerm == M.TermAt(n, last) && m.logIndex >= last);
      var voter := IsVoter(m.from);
      var grant := voter && m.term == n.term && (n.votedFor == 0 || n.votedFor == m.from) && upToDate;
      if grant {
        var ok := PersistHardState(HardState(n.term, m.from, n.commit));
        if !ok { return; }
        n := n.(votedFor := m.from, elapsed := 0);
      }
      Send(Blank(RequestVoteResponse, n.id, m.from, n.term).(reject := !grant));
    }

    method OnVoteResponse(m: Message)
      requires M.Valid(n) && NodeId(m.from) && !n.faulted
      modifies this
      ensures n == M.OnVoteResponse(old(n), m)
    {
      hide M.IsVoter, M.QuorumMask, M.BecomeLeader, Or, NodeBit;
      var voter := IsVoter(m.from);
      if n.state == Candidate && voter && m.term == n.term && !m.reject {
        n := n.(voteMask := Or(n.voteMask, NodeBit(m.from)));
        var won := QuorumMask(n.voteMask);
        if won { BecomeLeader(); }
      }
    }

    // ----- Following -----

    method StoreEntry(at: nat, e: Entry) returns (ok: bool)
      requires M.Valid(n) && n.baseIndex < at && !n.faulted
      modifies this
      ensures n == M.StoreEntry(old(n), at, e) && ok == !n.faulted
    {
      hide M.RebuildPendingConfig, M.EnsurePeers, Or, S.Append;
      ok := true;
      if M.InLog(n, at) && M.TermAt(n, at) != e.term {
        n := n.(log := n.log[..at - n.baseIndex]);
        RebuildPendingConfig();
      }
      if at == M.LastIndex(n) + 1 {
        ok := Settle(S.Append(n.disk, at, e));
        if !ok { return; }
        n := n.(log := n.log + [e]);
        if e.kind == JointConfig || e.kind == FinalConfig {
          n := n.(pendingConfig := at);
          EnsurePeers(Or(e.oldVoters, e.newVoters));
        }
      }
    }

    method FollowCommit(m: Message) returns (ok: bool)
      requires M.Valid(n) && !n.faulted
      modifies this
      ensures n == M.FollowCommit(old(n), m) && ok == !n.faulted
    {
      hide M.ApplyCommittedConfigurations, S.SaveHardState;
      ok := true;
      if m.commit > n.commit && (m.logIndex > n.commit || (m.hasEntry && m.logIndex + 1 > n.commit)) {
        var previous, matched := n.commit, m.logIndex;
        if m.hasEntry { matched := matched + 1; }
        var commit := Min(m.commit, matched);
        ok := PersistHardState(HardState(n.term, n.votedFor, commit));
        if !ok { return; }
        n := n.(commit := commit);
        ApplyCommittedConfigurations(previous + 1, n.commit);
      }
    }

    method OnAppend(m: Message)
      requires M.Valid(n) && NodeId(m.from) && !n.faulted
      modifies this
      ensures n == M.OnAppend(old(n), m)
    {
      hide M.StoreEntry, M.FollowCommit, M.ValidNewEntry;
      var reject := m.term < n.term || !M.InLog(n, m.logIndex) || M.TermAt(n, m.logIndex) != m.logTerm;
      if !reject && m.hasEntry && m.logIndex + 1 == M.LastIndex(n) + 1 && !M.ValidNewEntry(n, m.entry) {
        reject := true;
      }
      var acked := M.LastIndex(n);
      if !reject {
        n := n.(state := Follower, leader := m.from, elapsed := 0);
        acked := m.logIndex;
        if m.hasEntry {
          var stored := StoreEntry(m.logIndex + 1, m.entry);
          if !stored { return; }
          acked := acked + 1;
        }
        var ok := FollowCommit(m);
        if !ok { return; }
      }
      Send(Blank(AppendResponse, n.id, m.from, n.term).(reject := reject, acked := acked, context := m.context));
    }

    // ----- Leading -----

    /** The nodes known to hold `index`. */
    method AckedMask(index: nat) returns (acked: nat)
      requires M.Valid(n)
      ensures acked == M.AckedMask(n, index)
    {
      hide Or, NodeBit;
      acked := NodeBit(n.id);
      var k := 0;
      while k < |n.peers|
        invariant k <= |n.peers|
        invariant M.AckedFrom(n, index, k, acked) == M.AckedFrom(n, index, 0, NodeBit(n.id))
      {
        if Lookup(n.matched, n.peers[k]) >= index { acked := Or(acked, NodeBit(n.peers[k])); }
        k := k + 1;
      }
    }

    method CommitAt(index: nat)
      requires M.Valid(n) && !n.faulted
      modifies this
      ensures n == M.CommitAt(old(n), index)
    {
      hide M.ApplyCommittedConfigurations, M.BroadcastAppend, S.SaveHardState;
      var ok := PersistHardState(HardState(n.term, n.votedFor, index));
      if !ok { return; }
      var previous := n.commit;
      n := n.(commit := index);
      ApplyCommittedConfigurations(previous + 1, n.commit);
      if n.state == Leader { BroadcastAppend(); }
    }

    /** Scans from the last entry down and commits at the first index that may be committed. */
    method AdvanceCommit()
      requires M.Valid(n) && !n.faulted
      modifies this
      ensures n == M.AdvanceCommit(old(n))
    {
      hide M.CommitAt, M.AckedMask, M.CanCommitIndex;
      var index := M.LastIndex(n);
      while index > n.commit
        invariant 0 <= index && n == old(n)
        invariant M.FindCommittable(n, index) == M.FindCommittable(n, M.LastIndex(n))
        decreases index
      {
        if M.TermAt(n, index) == n.term {
          var acked := AckedMask(index);
          var can := CanCommitIndex(index, acked);
          if can {
            CommitAt(index);
            return;
          }
        }
        index := index - 1;
      }
    }

    method CountReadAck(m: Message)
      requires M.Valid(n) && NodeId(m.from)
      modifies this
      ensures n == M.CountReadAck(old(n), m)
    {
      hide M.IsVoter, M.QuorumMask, Or, NodeBit;
      var voter := IsVoter(m.from);
      if n.state == Leader && m.term == n.term && !m.reject && m.context != 0 && m.context == n.readContext && voter {
        n := n.(readAckMask := Or(n.readAckMask, NodeBit(m.from)));
        var confirmed := QuorumMask(n.readAckMask);
        if confirmed { n := n.(readIndex := n.commit, readReady := true); }
      }
    }

    method OnAppendResponse(m: Message)
      requires M.Valid(n) && NodeId(m.from) && !n.faulted
      modifies this
      ensures n == M.OnAppendResponse(old(n), m)
    {
      hide M.CountReadAck, M.AdvanceCommit, M.AppendToContext;
      CountReadAck(m);
      if n.state != Leader || m.term != n.term || m.acked >= M.LastIndex(n) + 1 { return; }
      if m.reject {
        if Lookup(n.next, m.from) > 1 { n := n.(next := n.next[m.from := Lookup(n.next, m.from) - 1]); }
        AppendToContext(m.from, 0);
        return;
      }
      n := n.(matched := n.matched[m.from := m.acked], next := n.next[m.from := m.acked + 1]);
      AdvanceCommit();
      if n.state != Leader { return; }
      if Lookup(n.next, m.from) < M.LastIndex(n) + 1 { AppendToContext(m.from, 0); }
    }

    // ----- Snapshots -----

    /** Saves a snapshot and drops the stored prefix it covers. */
    method Publish(snapshot: Snapshot) returns (ok: bool)
      modifies this
      ensures var saved := S.SaveSnapshot(old(n).disk, snapshot);
        var fenced := S.CompactLog(saved.disk, snapshot.lastIndex);
        && ok == (saved.ok && fenced.ok)
        && n == if !saved.ok then M.FailStorage(old(n).(disk := saved.disk))
                else if !fenced.ok then M.FailStorage(old(n).(disk := fenced.disk)) else old(n).(disk := fenced.disk)
    {
      hide S.SaveSnapshot, S.CompactLog;
      var a := S.SaveSnapshot(n.disk, snapshot);
      n := n.(disk := a.disk);
      if a.ok {
        a := S.CompactLog(n.disk, snapshot.lastIndex);
        n := n.(disk := a.disk);
      }
      ok := a.ok;
      if !ok { FailStorage(); }
    }

    method Compact(index: nat, data: seq<Byte>) returns (ok: bool)
      requires M.Valid(n)
      modifies this
      ensures n == M.Compact(old(n), index, data) && ok == M.Compacts(old(n), index, data)
      ensures !old(n).faulted && D.Mirror(old(n)) ==> D.Kept(n)
      ensures old(n).faulted && D.Halted(old(n)) ==> n.faulted && D.Halted(n)
    {
      hide S.SaveSnapshot, S.CompactLog, D.Mirror, D.Halted;
      if n.faulted {
        if D.Halted(n) { D.CompactHalted(n, index, data); }
      } else if D.Mirror(n) {
        D.CompactKept(n, index, data);
      }
      if index <= n.baseIndex || index > n.applied { return false; }
      if !M.InLog(n, index) { return false; }
      var term := M.TermAt(n, index);
      var snapshot := Snapshot(index, term, data, n.votersOld, n.votersNew);
      ok := Publish(snapshot);
      if !ok { return; }
      n := n.(log := n.log[index - n.baseIndex..]);
      n := n.(baseIndex := index, baseTerm := term, snapshot := snapshot);
    }

    method TakeSnapshot(s: Snapshot) returns (ok: bool)
      requires M.Valid(n) && !n.faulted
      modifies this
      ensures n == M.TakeSnapshot(old(n), s) && ok == !n.faulted
    {
      hide S.SaveSnapshot, S.CompactLog;
      ok := Publish(s);
      if !ok { return; }
      if M.InLog(n, s.lastIndex) && M.TermAt(n, s.lastIndex) == s.lastTerm {
        n := n.(log := n.log[s.lastIndex - n.baseIndex..]);
      } else {
        n := n.(log := [ZERO_ENTRY.(term := s.lastTerm)]);
      }
      n := n.(baseIndex := s.lastIndex, baseTerm := s.lastTerm, snapshot := s, votersOld := s.oldVoters, votersNew := s.newVoters);
      n := n.(commit := Max(n.commit, s.lastIndex), applied := Max(n.applied, s.lastIndex));
    }

    method OnInstallSnapshot(m: Message)
      requires M.Valid(n) && !n.faulted
      modifies this
      ensures n == M.OnInstallSnapshot(old(n), m)
    {
      hide M.TakeSnapshot;
      var s := m.snapshot;
      var reject := m.term < n.term || s.lastIndex < n.baseIndex || s.oldVoters == 0 || (s.lastIndex == n.baseIndex && s.lastTerm != n.baseTerm);
      if !reject && s.lastIndex > n.baseIndex {
        var ok := TakeSnapshot(s);
        if !ok { return; }
      }
      if !reject { n := n.(state := Follower, leader := m.from, elapsed := 0); }
      Send(Blank(InstallSnapshotResponse, n.id, m.from, n.term).(reject := reject, acked := n.baseIndex));
    }

    method OnInstallSnapshotResponse(m: Message)
      requires M.Valid(n) && NodeId(m.from)
      modifies this
      ensures n == M.OnInstallSnapshotResponse(old(n), m)
    {
      hide M.IsVoter, M.AppendToContext;
      var voter := IsVoter(m.from);
      if n.state != Leader || m.term != n.term || m.reject || !voter { return; }
      if m.acked > Lookup(n.matched, m.from) {
        n := n.(matched := n.matched[m.from := m.acked], next := n.next[m.from := m.acked + 1]);
      }
      if Lookup(n.next, m.from) <= M.LastIndex(n) { AppendToContext(m.from, 0); }
    }

    // ----- Delivery -----

    method Step(m: Message)
      requires M.Valid(n) && NodeId(m.from)
      modifies this
      ensures n == M.Step(old(n), m)
      ensures !old(n).faulted && D.Mirror(old(n)) && D.Harmless(old(n), m) ==> D.Kept(n) && P.Spoken(old(n), n)
    {
      hide M.Dispatch, S.SaveHardState, D.Mirror, D.Halted, D.Harmless, P.Spoken;
      if !n.faulted && D.Mirror(n) && D.Harmless(n, m) {
        D.StepKept(n, m);
        P.StepSpoken(n, m);
      }
      if n.faulted { return; }
      if m.kind != PreVote && m.kind != PreVoteResponse && m.term > n.term {
        var ok := PersistHardState(HardState(m.term, 0, n.commit));
        if !ok { return; }
        n := n.(state := Follower, term := m.term, votedFor := 0, leader := 0, readReady := false);
      }
      Dispatch(m);
    }

    method Dispatch(m: Message)
      requires M.Valid(n) && NodeId(m.from) && !n.faulted
      modifies this
      ensures n == M.Dispatch(old(n), m)
    {
      hide M.OnPreVote, M.OnPreVoteResponse, M.OnVote, M.OnVoteResponse, M.OnAppend, M.OnAppendResponse, M.OnInstallSnapshot,
           M.OnInstallSnapshotResponse, M.StartElection;
      match m.kind
      case PreVote => OnPreVote(m);
      case PreVoteResponse => OnPreVoteResponse(m);
      case RequestVote => OnVote(m);
      case RequestVoteResponse => OnVoteResponse(m);
      case Append => OnAppend(m);
      case AppendResponse => OnAppendResponse(m);
      case InstallSnapshot => OnInstallSnapshot(m);
      case InstallSnapshotResponse => OnInstallSnapshotResponse(m);
      case TimeoutNow =>
        if n.state == Follower && m.term == n.term && m.from == n.leader { StartElection(); }
    }

    // ----- Client calls -----

    method Propose(command: nat) returns (ok: bool)
      requires M.Valid(n)
      modifies this
      ensures n == M.Propose(old(n), command) && ok == (M.CanPropose(old(n)) && !n.faulted)
    {
      hide M.AppendLocal, M.BroadcastFrom;
      if n.state != Leader || n.faulted { return false; }
      ok := AppendLocal(ZERO_ENTRY.(term := n.term, command := command));
      if ok { BroadcastAppend(); }
    }

    method ProposeRequest(op: CommandOp, client: nat, request: nat, key: nat, value: nat) returns (ok: bool)
      requires M.Valid(n)
      modifies this
      ensures n == M.ProposeRequest(old(n), op, client, request, key, value)
      ensures ok == (M.CanPropose(old(n)) && client != 0 && request != 0 && op != Legacy && !n.faulted)
    {
      hide M.AppendLocal, M.BroadcastFrom;
      if n.state != Leader || n.faulted || client == 0 || request == 0 || op == Legacy { return false; }
      ok := AppendLocal(ZERO_ENTRY.(term := n.term, operation := op, clientId := client, requestId := request, key := key, value := value));
      if ok { BroadcastAppend(); }
    }

    static method VoterMask(ids: seq<Id>) returns (r: Option<nat>)
      requires forall id :: id in ids ==> NodeId(id)
      ensures r == M.VoterMask(ids)
    {
      hide And, Or, NodeBit;
      if |ids| == 0 { return None; }
      var mask, k := 0, 0;
      while k < |ids|
        invariant k <= |ids| && M.VoterMaskFrom(ids, k, mask) == M.VoterMaskFrom(ids, 0, 0)
      {
        if And(mask, NodeBit(ids[k])) != 0 { return None; }
        mask := Or(mask, NodeBit(ids[k]));
        k := k + 1;
      }
      r := Some(mask);
    }

    method ProposeJoint(ids: seq<Id>) returns (ok: bool)
      requires M.Valid(n) && forall id :: id in ids ==> NodeId(id)
      modifies this
      ensures n == M.ProposeJoint(old(n), ids)
      ensures ok == (M.VoterMask(ids).Some? && M.CanPropose(old(n)) && old(n).votersNew == 0 && old(n).pendingConfig == 0 && !n.faulted)
    {
      hide M.AppendLocal, M.BroadcastAppend, M.EnsurePeers, M.VoterMask;
      var mask := VoterMask(ids);
      if mask.None? || n.state != Leader || n.faulted || n.votersNew != 0 || n.pendingConfig != 0 { return false; }
      var e := ZERO_ENTRY.(term := n.term, kind := JointConfig, oldVoters := n.votersOld, newVoters := mask.value);
      EnsurePeers(mask.value);
      ok := AppendLocal(e);
      if !ok { return; }
      n := n.(pendingConfig := M.LastIndex(n));
      BroadcastAppend();
    }

    method ProposeFinal() returns (ok: bool)
      requires M.Valid(n)
      modifies this
      ensures n == M.ProposeFinal(old(n))
      ensures ok == (M.CanPropose(old(n)) && old(n).votersNew != 0 && old(n).pendingConfig == 0 && !n.faulted)
    {
      hide M.AppendLocal, M.BroadcastAppend;
      if n.state != Leader || n.faulted || n.votersNew == 0 || n.pendingConfig != 0 { return false; }
      ok := AppendLocal(ZERO_ENTRY.(term := n.term, kind := FinalConfig, oldVoters := n.votersNew));
      if !ok { return; }
      n := n.(pendingConfig := M.LastIndex(n));
      BroadcastAppend();
    }

    method StartReadIndex(context: nat) returns (ok: bool)
      requires M.Valid(n)
      modifies this
      ensures n == M.StartReadIndex(old(n), context) && ok == M.CanStartRead(old(n), context)
    {
      hide M.QuorumMask, M.AppendToContext, NodeBit;
      var alone := QuorumMask(NodeBit(n.id));
      if n.state != Leader || n.faulted || context == 0 || n.commit == 0 || (M.TermAt(n, n.commit) != n.term && !alone) { return false; }
      OpenBarrier(context);
      ghost var begun := n;
      var k := 0;
      while k < |n.peers|
        invariant M.Valid(n) && k <= |n.peers|
        invariant M.AppendAllFrom(n, context, k) == M.AppendAllFrom(begun, context, 0)
      {
        AppendToContext(n.peers[k], context);
        k := k + 1;
      }
      ok := true;
    }

    method OpenBarrier(context: nat)
      requires M.Valid(n)
      modifies this
      ensures n == M.OpenBarrier(old(n), context)
    {
      hide M.QuorumMask, NodeBit;
      var ready := QuorumMask(NodeBit(n.id));
      n := n.(readContext := context, readAckMask := NodeBit(n.id), readReady := ready);
      if n.readReady { n := n.(readIndex := n.commit); }
    }

    method TransferLeadership(target: Id) returns (ok: bool)
      requires M.Valid(n) && NodeId(target)
      modifies this
      ensures n == M.TransferLeadership(old(n), target)
      ensures ok ==> n.outbound == old(n.outbound) + [Blank(TimeoutNow, n.id, target, n.term)] && Lookup(n.matched, target) >= M.LastIndex(n)
    {
      hide M.IsVoter, M.AppendToContext;
      var voter := IsVoter(target);
      if n.state != Leader || target == n.id || !voter { return false; }
      if Lookup(n.matched, target) < M.LastIndex(n) {
        AppendToContext(target, 0);
        return false;
      }
      Send(Blank(TimeoutNow, n.id, target, n.term));
      ok := true;
    }

    /** Hands the queued messages over. */
    method Drain(dst: seq<Message>) returns (r: seq<Message>)
      modifies this
      ensures r == dst + old(n.outbound) && n == M.Drain(old(n))
    {
      r := dst + n.outbound;
      n := n.(outbound := []);
    }

    /** Hands over the normal entries between the applied and the commit index. */
    method ApplyEntries(dst: seq<Entry>) returns (r: seq<Entry>)
      requires M.Valid(n)
      modifies this
      ensures r == dst + M.AppliedFrom(old(n), old(n.applied)) && n == M.ApplyEntries(old(n))
    {
      r := dst;
      while n.applied < n.commit
        invariant n == old(n).(applied := n.applied) && old(n.applied) <= n.applied <= Max(old(n.applied), n.commit)
        invariant r + M.AppliedFrom(old(n), n.applied) == dst + M.AppliedFrom(old(n), old(n.applied))
      {
        n := n.(applied := n.applied + 1);
        var e := M.EntryAt(n, n.applied);
        if e.kind == Normal { r := r + [e]; }
      }
    }

    // ----- Construction and recovery -----

    static method PeerMask(id: Id, peers: seq<Id>) returns (voters: nat)
      requires NodeId(id) && (forall p :: p in peers ==> NodeId(p))
      ensures voters == M.MaskFrom(peers, 0, NodeBit(id))
    {
      hide Or, NodeBit;
      voters := NodeBit(id);
      var k := 0;
      while k < |peers|
        invariant k <= |peers| && M.MaskFrom(peers, k, voters) == M.MaskFrom(peers, 0, NodeBit(id))
      {
        voters := Or(voters, NodeBit(peers[k]));
        k := k + 1;
      }
    }

    /** A node that has never run. */
    constructor (id: Id, peers: seq<Id>, timeout: nat, disk: S.Disk)
      requires NodeId(id) && (forall p :: p in peers ==> NodeId(p)) && M.Distinct(id, peers)
      ensures n == M.NewNode(id, peers, timeout, disk)
    {
      hide M.MaskFrom, NodeBit;
      var voters := PeerMask(id, peers);
      n := M.NodeState(id, peers, Follower, 0, 0, 0, [ZERO_ENTRY], 0, 0, 0, 0, timeout, 0, 0, 0, 0, map[], map[], [], false,
                       0, 0, 0, false, NO_SNAPSHOT, voters, 0, 0, disk);
    }

    /** Replays the log's configuration entries, stopping at the first that no run could have put there. */
    method RestoreConfigurationState() returns (ok: bool)
      requires M.Valid(n)
      modifies this
      ensures var c, r := M.ReplayTo(old(n), M.LastIndex(old(n))), M.RestoredPeers(old(n), M.LastIndex(old(n)));
        && ok == c.ok
        && n == if ok then r.(votersOld := c.voters.old', votersNew := c.voters.new', pendingConfig := c.pending) else r
    {
      hide M.ReplayEntry, M.EnsurePeers, Or;
      ghost var start := n;
      var c := M.Replay(true, M.Voters(n.votersOld, n.votersNew), 0);
      var index := n.baseIndex + 1;
      while index <= M.LastIndex(n)
        invariant M.Valid(n) && n == M.RestoredPeers(start, index - 1) && start.baseIndex < index <= M.LastIndex(start) + 1
        invariant c.ok && c == M.ReplayTo(start, index - 1)
        decreases M.LastIndex(start) + 1 - index
      {
        SameReplay(start, n, index, c);
        c := M.ReplayEntry(n, index, c);
        if !c.ok {
          StaysBroken(start, index, M.LastIndex(start));
          return false;
        }
        var e := M.EntryAt(n, index);
        EnsurePeers(Or(e.oldVoters, e.newVoters));
        index := index + 1;
      }
      n := n.(votersOld := c.voters.old', votersNew := c.voters.new', pendingConfig := c.pending);
      ok := true;
    }

    method RestoreOrFail()
      requires M.Valid(n)
      modifies this
      ensures n == if old(n).commit > M.LastIndex(old(n)) then M.FailStorage(old(n)) else M.RestoreConfiguration(old(n))
    {
      hide M.ReplayTo, M.RestoredPeers;
      if n.commit > M.LastIndex(n) {
        FailStorage();
        return;
      }
      var ok := RestoreConfigurationState();
      if !ok { FailStorage(); }
    }

    /** A node brought back from its stored hard state and log; no role survives. */
    constructor Recovered(id: Id, peers: seq<Id>, timeout: nat, disk: S.Disk, hard: HardState, log: seq<Entry>)
      requires NodeId(id) && (forall p :: p in peers ==> NodeId(p)) && M.Distinct(id, peers)
      ensures n == M.RecoveredNode(id, peers, timeout, disk, hard, log)
    {
      hide M.MaskFrom, M.RestoreConfiguration, NodeBit;
      var voters := PeerMask(id, peers);
      n := M.NodeState(id, peers, Follower, hard.term, hard.votedFor, 0, [ZERO_ENTRY], 0, 0, hard.commit, 0, timeout, 0, 0, 0, 0,
                       map[], map[], [], false, 0, 0, 0, false, NO_SNAPSHOT, voters, 0, 0, disk);
      new;
      if |log| > 0 { n := n.(log := log); }
      RestoreOrFail();
    }

    /** A node brought back from a snapshot and the log after it. */
    constructor RecoveredWithSnapshot(id: Id, peers: seq<Id>, timeout: nat, disk: S.Disk, hard: HardState, s: Snapshot, suffix: seq<Entry>)
      requires NodeId(id) && (forall p :: p in peers ==> NodeId(p)) && M.Distinct(id, peers)
      ensures n == M.RecoveredNodeWithSnapshot(id, peers, timeout, disk, hard, s, suffix)
    {
      hide M.MaskFrom, M.RestoreConfiguration, M.EnsurePeers, Or, NodeBit;
      n := M.NodeState(id, peers, Follower, hard.term, hard.votedFor, 0, [ZERO_ENTRY], s.lastIndex, s.lastTerm, 0, 0, timeout, 0, 0, 0, 0,
                       map[], map[], [], false, 0, 0, 0, false, s, s.oldVoters, s.newVoters, 0, disk);
      new;
      if n.votersOld == 0 {
        FailStorage();
        return;
      }
      EnsurePeers(Or(n.votersOld, n.votersNew));
      n := n.(log := [ZERO_ENTRY.(term := s.lastTerm)] + suffix, commit := Max(hard.commit, s.lastIndex), applied := s.lastIndex);
      RestoreOrFail();
    }
  }

  /** Replaying an entry looks at the log, the commit index and nothing else of the node. */
  lemma SameReplay(a: M.NodeState, b: M.NodeState, index: nat, c: M.Replay)
    requires b == a.(peers := b.peers, next := b.next, matched := b.matched)
    ensures M.ReplayEntry(b, index, c) == M.ReplayEntry(a, index, c)
  {
  }

  /** A replay that has failed stays failed and adds no more peers. */
  lemma {:induction false} StaysBroken(n: M.NodeState, index: nat, last: nat)
    requires M.Valid(n) && n.baseIndex < index <= last && !M.ReplayTo(n, index).ok
    ensures M.ReplayTo(n, last) == M.ReplayTo(n, index) && M.RestoredPeers(n, last) == M.RestoredPeers(n, index - 1)
    decreases last - index
  {
    hide M.EnsurePeers, M.ReplayEntry;
    if index < last { StaysBroken(n, index, last - 1); }
  }
}
