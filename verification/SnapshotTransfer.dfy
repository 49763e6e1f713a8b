/**
 * A leader whose log no longer reaches back to what a follower needs sends its snapshot instead.
 *
 * One exchange brings the follower to the leader's base, from where entries take over, exactly when
 * the follower's own base does not contradict it and the leader does not believe the follower to be
 * there already.  Otherwise the two repeat the same exchange for ever.
 */
module SnapshotTransfer {
  import opened Quorums
  import opened Bits
  import opened RaftTypes
  import opened NodeModel
  import opened FixedVoters
  import opened CatchUp
  import S = StableStore
  import F = WalFormat
  import M = MachineModel
  import I = MachineSnapshot

  /** The leader's next message to the follower is its snapshot, which ends at its base. */
  predicate TooFarBack(l: NodeState, f: NodeState) {
    && Quiet(l) && Quiet(f) && l.state == Leader && f.term <= l.term && l.id != f.id
    && Lookup(l.next, f.id) <= l.baseIndex && NodeId(f.id) && IsVoter(l, f.id)
    && l.snapshot.lastIndex == l.baseIndex && l.snapshot.lastTerm == l.log[0].term && l.snapshot.oldVoters != 0
    && f.baseTerm == f.log[0].term
  }

  /** The follower's base lies before the snapshot's end, or is it. */
  predicate Fits(l: NodeState, f: NodeState) {
    f.baseIndex < l.baseIndex || (f.baseIndex == l.baseIndex && f.baseTerm == l.snapshot.lastTerm)
  }

  /** The exchange moves the follower on. */
  predicate Moves(l: NodeState, f: NodeState) {
    Fits(l, f) && Lookup(l.matched, f.id) < l.baseIndex
  }

  lemma SendsSnapshot(l: NodeState, f: NodeState)
    requires TooFarBack(l, f)
    ensures AppendToContext(l, f.id, 0) == Emit(l, Blank(InstallSnapshot, l.id, f.id, l.term).(snapshot := l.snapshot))
  {
  }

  /** The follower after a snapshot it takes: what it held beyond the snapshot's end survives
      exactly when it held that end itself. */
  function Installed(f: NodeState, s: Snapshot): seq<Entry> {
    if InLog(f, s.lastIndex) && TermAt(f, s.lastIndex) == s.lastTerm then f.log[s.lastIndex - f.baseIndex..] else [ZERO_ENTRY.(term := s.lastTerm)]
  }

  lemma Takes(f: NodeState, s: Snapshot)
    requires Quiet(f) && s.lastIndex > f.baseIndex && !TakeSnapshot(f, s).faulted
    ensures var r := TakeSnapshot(f, s);
      && Quiet(r) && r.log == Installed(f, s) && r.baseIndex == s.lastIndex && r.baseTerm == s.lastTerm && r.snapshot == s && s.lastIndex <= r.commit
      && r.log[0].term == s.lastTerm && r.term == f.term && r.id == f.id
  {
    hide S.SaveSnapshot, S.CompactLog, Acceptable;
    assert Acceptable(ZERO_ENTRY.(term := s.lastTerm)) by { EndIsAcceptable(s.lastTerm); }
  }

  lemma EndIsAcceptable(term: nat)
    ensures Acceptable(ZERO_ENTRY.(term := term))
  {
  }

  lemma Installs(f: NodeState, m: Message)
    requires Quiet(f) && m.kind == InstallSnapshot && f.term == m.term && m.snapshot.oldVoters != 0 && !OnInstallSnapshot(f, m).faulted
    ensures var r, s := OnInstallSnapshot(f, m), m.snapshot;
      && Quiet(r) && r.term == f.term && r.id == f.id && r.outbound != []
      && (s.lastIndex > f.baseIndex ==> r.log == Installed(f, s) && r.baseIndex == s.lastIndex && r.baseTerm == s.lastTerm && r.snapshot == s && s.lastIndex <= r.commit && r.log[0].term == s.lastTerm)
      && (s.lastIndex <= f.baseIndex ==> r.log == f.log && r.baseIndex == f.baseIndex && r.baseTerm == f.baseTerm)
      && Last(r.outbound) == Blank(InstallSnapshotResponse, f.id, m.from, f.term).(
           reject := s.lastIndex < f.baseIndex || (s.lastIndex == f.baseIndex && s.lastTerm != f.baseTerm), acked := r.baseIndex)
  {
    hide TakeSnapshot, Acceptable, Installed;
    if m.snapshot.lastIndex > f.baseIndex { Takes(f, m.snapshot); }
  }

  lemma StepInstalls(f: NodeState, m: Message)
    requires Quiet(f) && m.kind == InstallSnapshot && f.term <= m.term && NodeId(m.from) && m.snapshot.oldVoters != 0 && !Step(f, m).faulted
    ensures var r, s := Step(f, m), m.snapshot;
      && Quiet(r) && r.term == m.term && r.id == f.id && r.outbound != []
      && (s.lastIndex > f.baseIndex ==> r.log == Installed(f, s) && r.baseIndex == s.lastIndex && r.baseTerm == s.lastTerm && r.snapshot == s && s.lastIndex <= r.commit && r.log[0].term == s.lastTerm)
      && (s.lastIndex <= f.baseIndex ==> r.log == f.log && r.baseIndex == f.baseIndex && r.baseTerm == f.baseTerm)
      && Last(r.outbound) == Blank(InstallSnapshotResponse, f.id, m.from, m.term).(
           reject := s.lastIndex < f.baseIndex || (s.lastIndex == f.baseIndex && s.lastTerm != f.baseTerm), acked := r.baseIndex)
  {
    hide AdoptTerm, OnInstallSnapshot, Acceptable;
    AdoptsTerm(f, m);
    Installs(AdoptTerm(f, m), m);
  }

  lemma LeaderNotes(l: NodeState, m: Message)
    requires Quiet(l) && l.state == Leader && m.kind == InstallSnapshotResponse && m.term == l.term && NodeId(m.from) && IsVoter(l, m.from)
    ensures var r := Step(l, m);
      && Quiet(r) && r == l.(next := r.next, matched := r.matched, outbound := r.outbound) && (m.reject ==> r == l)
      && Lookup(r.matched, m.from) == (if !m.reject && m.acked > Lookup(l.matched, m.from) then m.acked else Lookup(l.matched, m.from))
      && (m.acked <= LastIndex(l) && Lookup(l.next, m.from) <= LastIndex(l) + 1 ==>
            Lookup(r.next, m.from) == if !m.reject && m.acked > Lookup(l.matched, m.from) then m.acked + 1 else Lookup(l.next, m.from))
  {
    hide IsVoter, TermAt, EntryAt;
  }

  /** One exchange. */
  lemma TransfersExactly(l: NodeState, f: NodeState, l': NodeState, f': NodeState)
    requires TooFarBack(l, f) && Exchange(l, f, l', f')
    ensures l' == l.(next := l'.next, matched := l'.matched, outbound := l'.outbound) && Quiet(l') && Quiet(f') && f'.id == f.id && f'.term == l.term
    ensures Moves(l, f) ==>
      && f'.baseIndex == l.baseIndex && Matches(l', f', l.baseIndex) && Lookup(l'.matched, f.id) == l.baseIndex && Lookup(l'.next, f.id) == l.baseIndex + 1
      && (f.baseIndex < l.baseIndex ==> f'.snapshot == l.snapshot && l.baseIndex <= f'.commit)
    ensures Fits(l, f) && l.baseIndex > f.baseIndex ==> f'.log == Installed(f, l.snapshot)
    ensures !(l.baseIndex > f.baseIndex) ==> f'.log == f.log && f'.baseIndex == f.baseIndex
    ensures !Moves(l, f) ==> TooFarBack(l', f') && !Moves(l', f')
    ensures !Moves(l, f) ==> Lookup(l'.next, f.id) == Lookup(l.next, f.id) && Lookup(l'.matched, f.id) == Lookup(l.matched, f.id)
  {
    hide Step, Acceptable, IsVoter, AppendToContext;
    SendsSnapshot(l, f);
    var l1 := AppendToContext(l, f.id, 0);
    StepInstalls(f, Last(l1.outbound));
    SameVoter(l, l1, f.id);
    LeaderNotes(l1, Last(f'.outbound));
    SameVoter(l, l', f.id);
  }

  // ----- Many exchanges -----

  /** Without such progress nothing ever changes, however often the snapshot is sent. */
  lemma {:induction false} RepeatsForever(ls: seq<NodeState>, fs: seq<NodeState>, k: nat)
    requires Exchanges(ls, fs) && TooFarBack(ls[0], fs[0]) && !Moves(ls[0], fs[0]) && k < |ls|
    ensures TooFarBack(ls[k], fs[k]) && !Moves(ls[k], fs[k]) && ls[k].log == ls[0].log && ls[k].baseIndex == ls[0].baseIndex
  {
    hide Exchange, TooFarBack, Moves;
    if k > 0 {
      RepeatsForever(ls, fs, k - 1);
      TransfersExactly(ls[k - 1], fs[k - 1], ls[k], fs[k]);
    }
  }

  /** Above the leader's base, equal terms mean equal logs so far. */
  ghost predicate MatchAbove(l: NodeState, f: NodeState, a: nat) {
    forall i: nat :: a <= i && Matches(l, f, i) ==> SameTo(l, f, a, i)
  }

  /** From the leader's base on, entries take over. */
  lemma HandsOver(l: NodeState, f: NodeState, l': NodeState, f': NodeState)
    requires TooFarBack(l, f) && Exchange(l, f, l', f') && Moves(l, f) && MatchAbove(l, f, l.baseIndex)
    ensures Pair(l', f', l.baseIndex) && Open(l', f')
  {
    hide Exchange, Acceptable;
    TransfersExactly(l, f, l', f');
    var a := l.baseIndex;
    forall i: nat | a <= i && Matches(l', f', i) ensures SameTo(l', f', a, i) {
      if f'.log == [ZERO_ENTRY.(term := l.snapshot.lastTerm)] {
        assert i == a;
      } else {
        assert forall j: nat :: a <= j ==> EntryAt(f', j) == EntryAt(f, j) && InLog(f', j) == InLog(f, j);
        assert Matches(l, f, i) && SameTo(l, f, a, i);
      }
    }
  }

  /** A follower that is sent a snapshot has in the end the leader's log exactly when the first
      exchange moves it on. */
  lemma TransferCatchesUp(ls: seq<NodeState>, fs: seq<NodeState>)
    requires Exchanges(ls, fs) && TooFarBack(ls[0], fs[0]) && MatchAbove(ls[0], fs[0], ls[0].baseIndex)
    requires |ls| > 2 * (LastIndex(ls[0]) - ls[0].baseIndex) + 3
    ensures CaughtUp(ls[|ls| - 1], fs[|ls| - 1], ls[0].baseIndex) <==> Moves(ls[0], fs[0])
  {
    hide Exchange, TooFarBack, Moves, MatchAbove, Pair, Open, SameTo;
    var k, a := |ls| - 1, ls[0].baseIndex;
    if Moves(ls[0], fs[0]) {
      assert Exchange(ls[0], fs[0], ls[1], fs[1]);
      HandsOver(ls[0], fs[0], ls[1], fs[1]);
      TransfersExactly(ls[0], fs[0], ls[1], fs[1]);
      Later(ls, fs);
      CatchesUpExactly(ls[1..], fs[1..], a);
    } else {
      RepeatsForever(ls, fs, k);
      StillBack(ls[k], fs[k], a);
    }
  }

  lemma Later(ls: seq<NodeState>, fs: seq<NodeState>)
    requires Exchanges(ls, fs) && |ls| > 1
    ensures Exchanges(ls[1..], fs[1..])
  {
    hide Exchange;
    forall k | 0 <= k < |ls[1..]| - 1 ensures Exchange(ls[1..][k], fs[1..][k], ls[1..][k + 1], fs[1..][k + 1]) {
      assert Exchange(ls[k + 1], fs[k + 1], ls[k + 1 + 1], fs[k + 1 + 1]);
    }
  }

  lemma StillBack(l: NodeState, f: NodeState, a: nat)
    requires TooFarBack(l, f)
    ensures !CaughtUp(l, f, a)
  {
    hide IsVoter, SameTo, Acceptable;
  }

  /** A leader that has compacted up to what a follower holds, and then hears an earlier refusal of
      that follower once more, is in that loop. */
  lemma DelayedRefusal(l: NodeState, f: NodeState, m: Message)
    requires Quiet(l) && Quiet(f) && l.state == Leader && f.term <= l.term && l.id != f.id && NodeId(f.id) && IsVoter(l, f.id) && f.baseTerm == f.log[0].term
    requires l.snapshot.lastIndex == l.baseIndex && l.snapshot.lastTerm == l.log[0].term && l.snapshot.oldVoters != 0 && 0 < l.baseIndex
    requires Lookup(l.next, f.id) == l.baseIndex + 1 && l.baseIndex <= Lookup(l.matched, f.id)
    requires m.kind == AppendResponse && m.from == f.id && m.term == l.term && m.reject && m.context == 0 && m.acked <= LastIndex(l)
    ensures TooFarBack(Step(l, m), f) && !Moves(Step(l, m), f)
  {
    hide IsVoter, Acceptable, TermAt, EntryAt;
    SameVoter(l, Step(l, m), f.id);
  }

  // ----- What a snapshot carries -----

  /** A compaction that succeeds leaves a snapshot that is fit to be sent: it ends at the new base,
      names the voters and holds the state handed in; the log from there on is as before. */
  lemma CompactPrepares(n: NodeState, index: nat, state: seq<Byte>)
    requires Valid(n) && Compacts(n, index, state)
    ensures var r := Compact(n, index, state);
      && r.snapshot == Snapshot(index, TermAt(n, index), state, n.votersOld, n.votersNew)
      && r.baseIndex == index && r.snapshot.lastTerm == r.log[0].term == r.baseTerm
      && LastIndex(r) == LastIndex(n) && forall i: nat :: index <= i ==> EntryAt(r, i) == EntryAt(n, i)
  {
    hide S.SaveSnapshot, S.CompactLog;
  }

  /** A snapshot taken of the machine after a prefix of the commands restores, where it arrives, a
      machine that ends like the leader's once it has applied the rest. */
  lemma MachineArrives(l: NodeState, f: NodeState, l': NodeState, f': NodeState, crc: F.Checksum, log: seq<Entry>, k: nat)
    requires TooFarBack(l, f) && Exchange(l, f, l', f') && Moves(l, f) && f.baseIndex < l.baseIndex
    requires k <= |log| && I.FitsState(M.ApplyAll(M.EMPTY, log[..k])) && l.snapshot.state == I.Snapshot(crc, M.ApplyAll(M.EMPTY, log[..k]))
    ensures var r := I.Restore(crc, f'.snapshot.state); r.Some? && M.ApplyAll(r.value, log[k..]) == M.ApplyAll(M.EMPTY, log)
  {
    hide Exchange, TooFarBack, I.Restore, I.Snapshot, I.FitsState, M.ApplyAll;
    TransfersExactly(l, f, l', f');
    I.ResumeFromSnapshot(crc, log, k);
  }
}
