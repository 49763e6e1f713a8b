/**
 * A leader and a follower that keep talking bring the follower's log into line.
 *
 * After each refusal the leader tries one entry earlier; after each success it sends the next one.
 * However far the two logs have come apart, twice the length of the stretch above the last index
 * they are known to share is enough.
 */
module CatchUp {
  import opened Quorums
  import opened Bits
  import opened RaftTypes
  import opened NodeModel
  import opened FixedVoters
  import J = JointCommit
  import S = StableStore

  // ----- One exchange -----

  /** The index just before the entry that `l` sends to `p` next. */
  function Probe(l: NodeState, p: Id): nat
    requires 0 < |l.log| && 0 < Lookup(l.next, p)
  {
    Min(Lookup(l.next, p), LastIndex(l) + 1) - 1
  }

  /** What an append message says: the entry before, the next one if there is one, and how far the
      sender has committed. */
  predicate Offers(l: NodeState, p: Id, m: Message)
    requires 0 < |l.log| && 0 < Lookup(l.next, p)
  {
    var i := Probe(l, p);
    && m.kind == Append && m.from == l.id && m.to == p && m.term == l.term && m.commit == l.commit && m.context == 0
    && m.logIndex == i && m.logTerm == TermAt(l, i)
    && (m.hasEntry <==> i < LastIndex(l)) && (m.hasEntry ==> m.entry == EntryAt(l, i + 1))
  }

  function Last(ms: seq<Message>): Message
    requires ms != []
  {
    ms[|ms| - 1]
  }

  /** The leader sends to the follower, the follower answers, the answer arrives; no write fails. */
  ghost predicate Exchange(l: NodeState, f: NodeState, l': NodeState, f': NodeState) {
    && Valid(l) && Valid(f) && !f'.faulted && !l'.faulted
    && var l1 := AppendToContext(l, f.id, 0);
       && l1.outbound != [] && NodeId(Last(l1.outbound).from) && f' == Step(f, Last(l1.outbound))
       && f'.outbound != [] && NodeId(Last(f'.outbound).from) && l' == Step(l1, Last(f'.outbound))
  }

  /** An entry that changes no configuration and that a follower takes. */
  predicate Acceptable(e: Entry) {
    PlainEntry(e) && (e.kind == Normal && e.operation != Legacy ==> e.clientId != 0 && e.requestId != 0)
  }

  predicate Quiet(n: NodeState) {
    Valid(n) && !n.faulted && n.pendingConfig == 0 && forall i :: 0 <= i < |n.log| ==> Acceptable(n.log[i])
  }

  predicate Matches(l: NodeState, f: NodeState, i: nat) {
    InLog(l, i) && InLog(f, i) && TermAt(l, i) == TermAt(f, i)
  }

  /** The logs are equal above `a` and up to `i`. */
  predicate SameTo(l: NodeState, f: NodeState, a: nat, i: nat) {
    forall j: nat :: a < j <= i ==> EntryAt(l, j) == EntryAt(f, j)
  }

  /** Both logs hold the index `a` with one term; above it, equal terms mean equal logs so far. */
  ghost predicate Pair(l: NodeState, f: NodeState, a: nat) {
    && Quiet(l) && Quiet(f) && l.state == Leader && f.term <= l.term && l.id != f.id
    && l.baseIndex <= a < Lookup(l.next, f.id) && Matches(l, f, a)
    && (forall i: nat :: a <= i && Matches(l, f, i) ==> SameTo(l, f, a, i))
  }

  // ----- The leader sends -----

  lemma SendsOffer(l: NodeState, p: Id)
    requires Valid(l) && l.baseIndex < Lookup(l.next, p)
    ensures var r := AppendToContext(l, p, 0);
      && |r.outbound| == |l.outbound| + 1 && Offers(l, p, r.outbound[|l.outbound|])
      && r == l.(next := r.next, outbound := r.outbound) && Lookup(r.next, p) == Probe(l, p) + 1
  {
  }

  // ----- The follower answers -----

  /** The follower's log once it has taken the message's entry. */
  function Placed(f: NodeState, m: Message): seq<Entry>
    requires f.baseIndex <= m.logIndex < f.baseIndex + |f.log|
  {
    var at := m.logIndex + 1;
    if !m.hasEntry || (InLog(f, at) && TermAt(f, at) == m.entry.term) then f.log else f.log[..at - f.baseIndex] + [m.entry]
  }

  lemma StoresEntry(f: NodeState, m: Message)
    requires Quiet(f) && m.hasEntry && Acceptable(m.entry) && InLog(f, m.logIndex)
    ensures var r := StoreEntry(f, m.logIndex + 1, m.entry);
      r.faulted || r == f.(log := Placed(f, m), disk := r.disk)
  {
    hide S.Append, RebuildPendingConfig, EnsurePeers, Acceptable;
    var at := m.logIndex + 1;
    var cut := f.(log := f.log[..at - f.baseIndex]);
    if InLog(f, at) { Rebuilds(cut); }
    assert !IsConfig(m.entry) by { NoConfig(m.entry); }
  }

  lemma Rebuilds(n: NodeState)
    requires Quiet(n)
    ensures RebuildPendingConfig(n) == n
  {
    hide RebuildFrom;
    FixedRebuild(n.(pendingConfig := 0), Max(n.commit + 1, n.baseIndex + 1));
  }

  lemma NoConfig(e: Entry)
    requires Acceptable(e)
    ensures !IsConfig(e)
  {
  }

  lemma FollowsCommit(f: NodeState, m: Message)
    requires Quiet(f)
    ensures var r := FollowCommit(f, m);
      r.faulted || (r == f.(commit := r.commit, disk := r.disk) && f.commit <= r.commit && Min(m.commit, MatchedIndex(m)) <= r.commit)
  {
    hide S.SaveHardState, ApplyFrom;
    var commit := Min(m.commit, MatchedIndex(m));
    var n1 := Persist(f, HardState(f.term, f.votedFor, commit));
    var n2 := n1.(commit := commit);
    FixedApply(n2, Max(f.commit + 1, n2.baseIndex + 1), commit);
  }

  lemma PlacedIsQuiet(f: NodeState, m: Message)
    requires Quiet(f) && InLog(f, m.logIndex) && (m.hasEntry ==> Acceptable(m.entry))
    ensures Quiet(f.(log := Placed(f, m)))
  {
  }

  /** The follower refuses exactly what does not fit its log; else it takes the entry and answers
      with the index it has reached. */
  lemma Answers(f: NodeState, m: Message)
    requires Quiet(f) && m.kind == Append && f.term == m.term && NodeId(m.from) && (m.hasEntry ==> Acceptable(m.entry))
    ensures var r := OnAppend(f, m); var fits := InLog(f, m.logIndex) && TermAt(f, m.logIndex) == m.logTerm;
      && (r.faulted ==> fits)
      && (!r.faulted ==>
            && |r.outbound| > 0
            && r.outbound[|r.outbound| - 1] == Blank(AppendResponse, f.id, m.from, f.term).(
                 reject := !fits, acked := if fits then MatchedIndex(m) else LastIndex(f), context := m.context)
            && Quiet(r) && r.term == f.term && r.id == f.id && r.baseIndex == f.baseIndex
            && r.log == (if fits then Placed(f, m) else f.log)
            && f.commit <= r.commit && (fits ==> Min(m.commit, MatchedIndex(m)) <= r.commit))
  {
    hide StoreEntry, FollowCommit, Placed;
    var fits := InLog(f, m.logIndex) && TermAt(f, m.logIndex) == m.logTerm;
    if fits {
      var n0 := f.(state := Follower, leader := m.from, elapsed := 0);
      assert !RejectsAppend(f, m);
      if m.hasEntry { StoresEntry(n0, m); }
      SamePlaced(f, n0, m);
      PlacedIsQuiet(f, m);
      var n1 := if m.hasEntry then StoreEntry(n0, m.logIndex + 1, m.entry) else n0;
      if !n1.faulted { FollowsCommit(n1, m); }
    }
  }

  lemma SamePlaced(f: NodeState, g: NodeState, m: Message)
    requires g.log == f.log && g.baseIndex == f.baseIndex && InLog(f, m.logIndex)
    ensures Placed(g, m) == Placed(f, m) && (!m.hasEntry ==> Placed(f, m) == f.log)
  {
  }

  lemma AdoptsTerm(f: NodeState, m: Message)
    requires Quiet(f) && (m.kind == Append || m.kind == InstallSnapshot) && f.term <= m.term
    ensures var r := AdoptTerm(f, m);
      r.faulted || (Quiet(r) && r.term == m.term && r == f.(state := r.state, term := r.term, votedFor := r.votedFor, leader := r.leader, readReady := r.readReady, disk := r.disk))
  {
    hide S.SaveHardState;
  }

  /** The same for a follower that may have to adopt the leader's term first. */
  lemma StepAnswers(f: NodeState, m: Message)
    requires Quiet(f) && m.kind == Append && f.term <= m.term && NodeId(m.from) && (m.hasEntry ==> Acceptable(m.entry)) && !Step(f, m).faulted
    ensures var r := Step(f, m); var fits := InLog(f, m.logIndex) && TermAt(f, m.logIndex) == m.logTerm;
      && r.outbound != []
      && Last(r.outbound) == Blank(AppendResponse, f.id, m.from, m.term).(
           reject := !fits, acked := if fits then MatchedIndex(m) else LastIndex(f), context := m.context)
      && Quiet(r) && r.term == m.term && r.id == f.id && r.baseIndex == f.baseIndex
      && r.log == (if fits then Placed(f, m) else f.log)
      && f.commit <= r.commit && (fits ==> Min(m.commit, MatchedIndex(m)) <= r.commit)
  {
    hide AdoptTerm, OnAppend, Placed, Acceptable;
    AdoptsTerm(f, m);
    var n1 := AdoptTerm(f, m);
    Answers(n1, m);
    if InLog(f, m.logIndex) { SamePlaced(f, n1, m); }
  }

  // ----- The leader learns -----

  /** An answer that names an index beyond the leader's own log is dropped unread. */
  lemma IgnoresLongLogs(l: NodeState, m: Message)
    requires Quiet(l) && l.state == Leader && NodeId(m.from) && m.kind == AppendResponse && m.term == l.term && m.context == 0
    requires m.acked > LastIndex(l)
    ensures Step(l, m) == l
  {
  }

  lemma TriesEarlier(l: NodeState, m: Message)
    requires Quiet(l) && l.state == Leader && NodeId(m.from) && m.kind == AppendResponse && m.term == l.term && m.context == 0
    requires m.reject && m.acked <= LastIndex(l) && l.baseIndex + 1 < Lookup(l.next, m.from) <= LastIndex(l) + 1
    ensures var r := Step(l, m);
      r == l.(next := r.next, outbound := r.outbound) && Lookup(r.next, m.from) == Lookup(l.next, m.from) - 1 && Follows(r, m.from)
  {
    hide AppendToContext, Follows;
    var next := Lookup(l.next, m.from);
    SendsNext(l.(next := l.next[m.from := next - 1]), m.from);
  }

  lemma {:induction false} BroadcastLeaves(l: NodeState, k: nat, p: Id)
    requires Valid(l) && k <= |l.peers| && Lookup(l.next, p) <= LastIndex(l) + 1
    ensures Lookup(BroadcastFrom(l, k).next, p) == Lookup(l.next, p)
    decreases |l.peers| - k
  {
    hide IsVoter, AppendMessage, SnapshotMessage;
    if k < |l.peers| {
      var q := l.peers[k];
      BroadcastLeaves(if IsVoter(l, q) then AppendToContext(l, q, 0) else l, k + 1, p);
    }
  }

  /** The commit index may move; role, log and what is known of `p` stay. */
  predicate Settled(l: NodeState, r: NodeState, p: Id) {
    && Quiet(r) && r.state == Leader && r.term == l.term && r.id == l.id && r.log == l.log && r.baseIndex == l.baseIndex
    && l.commit <= r.commit && Lookup(r.next, p) == Lookup(l.next, p) && Lookup(r.matched, p) == Lookup(l.matched, p)
  }

  /** The last message queued is the next offer to `p`. */
  predicate Follows(r: NodeState, p: Id) {
    0 < |r.log| && 0 < Lookup(r.next, p) && r.outbound != [] && Offers(r, p, Last(r.outbound))
  }

  lemma CommitLeaves(l: NodeState, index: nat, p: Id)
    requires Quiet(l) && l.state == Leader && l.commit < index && Lookup(l.next, p) <= LastIndex(l) + 1
    ensures var r := CommitAt(l, index); r.faulted || Settled(l, r, p)
  {
    hide S.SaveHardState, ApplyFrom, BroadcastFrom;
    var n1 := Persist(l, HardState(l.term, l.votedFor, index));
    if !n1.faulted {
      var n2 := n1.(commit := index);
      FixedApply(n2, Max(l.commit + 1, n2.baseIndex + 1), index);
      BroadcastLeaves(n2, 0, p);
    }
  }

  lemma ConfirmLeaves(l: NodeState, p: Id)
    requires Quiet(l) && l.state == Leader && l.baseIndex < Lookup(l.next, p) <= LastIndex(l) + 1
    ensures var r := Confirm(l, p); r.faulted || (Settled(l, r, p) && (Lookup(r.next, p) <= LastIndex(r) ==> Follows(r, p)))
  {
    hide CommitAt, FindCommittable, AppendToContext;
    var found := FindCommittable(l, LastIndex(l));
    if found.Some? { CommitLeaves(l, found.value, p); }
    var n1 := AdvanceCommit(l);
    if !n1.faulted && Lookup(n1.next, p) <= LastIndex(n1) { SendsNext(n1, p); }
  }

  lemma SendsNext(l: NodeState, p: Id)
    requires Valid(l) && l.baseIndex < Lookup(l.next, p) <= LastIndex(l) + 1
    ensures var r := AppendToContext(l, p, 0);
      r == l.(next := r.next, outbound := r.outbound) && Lookup(r.next, p) == Lookup(l.next, p) && Follows(r, p)
  {
    hide AppendToContext, Offers;
    SendsOffer(l, p);
    var r := AppendToContext(l, p, 0);
    SameOffer(l, r, p, Last(r.outbound));
  }

  lemma SameOffer(l: NodeState, r: NodeState, p: Id, m: Message)
    requires 0 < |l.log| && r == l.(next := r.next, outbound := r.outbound) && Lookup(r.next, p) == Lookup(l.next, p) > 0
    ensures Offers(r, p, m) == Offers(l, p, m)
  {
    var i := Probe(l, p);
    assert Probe(r, p) == i && TermAt(r, i) == TermAt(l, i) && EntryAt(r, i + 1) == EntryAt(l, i + 1);
  }

  lemma RecordsMatch(l: NodeState, m: Message)
    requires Quiet(l) && l.state == Leader && NodeId(m.from) && m.kind == AppendResponse && m.term == l.term && m.context == 0
    requires !m.reject && l.baseIndex <= m.acked <= LastIndex(l)
    ensures var r := Step(l, m);
      || r.faulted
      || (&& Settled(l.(next := l.next[m.from := m.acked + 1], matched := l.matched[m.from := m.acked]), r, m.from)
          && (m.acked < LastIndex(l) ==> Follows(r, m.from)))
  {
    hide Confirm, Follows;
    ConfirmLeaves(RecordMatch(l, m.from, m.acked), m.from);
  }

  // ----- What an exchange achieves -----

  lemma OfferIsAcceptable(l: NodeState, p: Id, m: Message)
    requires Quiet(l) && l.baseIndex < Lookup(l.next, p) && Offers(l, p, m)
    ensures m.hasEntry ==> Acceptable(m.entry)
  {
  }

  /** The index reached by a successful exchange. */
  function Reached(l: NodeState, p: Id): nat
    requires 0 < |l.log| && 0 < Lookup(l.next, p)
  {
    Min(Probe(l, p) + 1, LastIndex(l))
  }

  /** Taking what a leader offers keeps the logs paired, one entry further. */
  lemma PlacedPairs(l: NodeState, f: NodeState, f': NodeState, a: nat, m: Message)
    requires Pair(l, f, a) && Offers(l, f.id, m) && Matches(l, f, m.logIndex)
    requires f'.log == Placed(f, m) && f'.baseIndex == f.baseIndex
    ensures Matches(l, f', Reached(l, f.id)) && Matches(l, f', a)
    ensures forall i: nat :: a <= i && Matches(l, f', i) ==> SameTo(l, f', a, i)
  {
    hide Acceptable;
    var i := m.logIndex;
    assert SameTo(l, f, a, i);
    if f'.log != f.log {
      assert forall j: nat :: f.baseIndex <= j <= i ==> EntryAt(f', j) == EntryAt(f, j);
      forall k: nat | a <= k && Matches(l, f', k) ensures SameTo(l, f', a, k) {
        assert k <= i + 1;
      }
    } else {
      assert forall j: nat :: EntryAt(f', j) == EntryAt(f, j) && InLog(f', j) == InLog(f, j);
      forall k: nat | a <= k && Matches(l, f', k) ensures SameTo(l, f', a, k) {
        assert Matches(l, f, k) && SameTo(l, f, a, k);
      }
    }
  }

  lemma SamePairs(l: NodeState, f: NodeState, l': NodeState, f': NodeState, a: nat)
    requires l'.log == l.log && l'.baseIndex == l.baseIndex && f'.log == f.log && f'.baseIndex == f.baseIndex
    ensures forall i: nat :: Matches(l', f', i) == Matches(l, f, i) && SameTo(l', f', a, i) == SameTo(l, f, a, i)
  {
    assert forall j: nat :: EntryAt(f', j) == EntryAt(f, j) && EntryAt(l', j) == EntryAt(l, j);
  }

  predicate SameLeader(l: NodeState, l': NodeState) {
    l'.log == l.log && l'.baseIndex == l.baseIndex && l'.term == l.term && l'.id == l.id && l.commit <= l'.commit
  }

  lemma Taken(l: NodeState, f: NodeState, m: Message, a: nat)
    requires Pair(l, f, a) && Offers(l, f.id, m) && NodeId(m.from) && Matches(l, f, m.logIndex) && !Step(f, m).faulted
    ensures var f', k := Step(f, m), Reached(l, f.id);
      && f'.outbound != [] && Last(f'.outbound) == Blank(AppendResponse, f.id, l.id, l.term).(acked := k)
      && Quiet(f') && f'.term == l.term && f'.id == f.id && Matches(l, f', k) && Matches(l, f', a) && Min(l.commit, k) <= f'.commit
      && forall i: nat :: a <= i && Matches(l, f', i) ==> SameTo(l, f', a, i)
  {
    hide Step, Placed, Acceptable, SameTo;
    OfferIsAcceptable(l, f.id, m);
    StepAnswers(f, m);
    PlacedPairs(l, f, Step(f, m), a, m);
  }

  /** An offer that fits is taken. */
  lemma Advances(l: NodeState, f: NodeState, l': NodeState, f': NodeState, a: nat)
    requires Pair(l, f, a) && Exchange(l, f, l', f') && Matches(l, f, Probe(l, f.id))
    ensures Pair(l', f', a) && SameLeader(l, l') && f'.id == f.id
    ensures var k := Reached(l, f.id);
      && Matches(l', f', k) && Lookup(l'.matched, f.id) == k && Lookup(l'.next, f.id) == k + 1 && Min(l.commit, k) <= f'.commit
      && (k < LastIndex(l) ==> Follows(l', f.id))
  {
    hide AppendToContext, Step, Acceptable, SameTo, Follows;
    SendsOffer(l, f.id);
    var l1 := AppendToContext(l, f.id, 0);
    Taken(l, f, Last(l1.outbound), a);
    RecordsMatch(l1, Last(f'.outbound));
    SamePairs(l, f', l', f', a);
  }

  /** An offer that does not fit is refused; the leader tries one entry earlier, unless the
      follower's log is longer than its own. */
  lemma Retreats(l: NodeState, f: NodeState, l': NodeState, f': NodeState, a: nat)
    requires Pair(l, f, a) && Exchange(l, f, l', f') && !Matches(l, f, Probe(l, f.id))
    ensures Pair(l', f', a) && SameLeader(l, l') && f'.id == f.id && f'.log == f.log && f'.baseIndex == f.baseIndex
    ensures Lookup(l'.matched, f.id) == Lookup(l.matched, f.id)
    ensures Lookup(l'.next, f.id) == if LastIndex(f) <= LastIndex(l) then Probe(l, f.id) else Probe(l, f.id) + 1
    ensures LastIndex(f) <= LastIndex(l) ==> Follows(l', f.id)
  {
    hide AppendToContext, Step, Placed, Acceptable, SameTo, Follows;
    SendsOffer(l, f.id);
    var l1 := AppendToContext(l, f.id, 0);
    var m := Last(l1.outbound);
    OfferIsAcceptable(l, f.id, m);
    StepAnswers(f, m);
    if LastIndex(f) <= LastIndex(l) { TriesEarlier(l1, Last(f'.outbound)); } else { IgnoresLongLogs(l1, Last(f'.outbound)); }
    SamePairs(l, f, l', f', a);
  }

  // ----- Many exchanges -----

  /** The follower has the whole log of the leader, and the leader knows it. */
  predicate CaughtUp(l: NodeState, f: NodeState, a: nat) {
    && 0 < |l.log| && Matches(l, f, LastIndex(l)) && SameTo(l, f, a, LastIndex(l))
    && Lookup(l.matched, f.id) == LastIndex(l) && Lookup(l.next, f.id) == LastIndex(l) + 1
  }

  /** The next offer fits, or the follower's log is no longer than the leader's. */
  predicate Open(l: NodeState, f: NodeState) {
    0 < |l.log| && 0 < |f.log| && 0 < Lookup(l.next, f.id) && (Matches(l, f, Probe(l, f.id)) || LastIndex(f) <= LastIndex(l))
  }

  /** How many exchanges it takes at most. */
  function Distance(l: NodeState, f: NodeState, a: nat): nat
    requires 0 < |l.log| && a < Lookup(l.next, f.id) && a <= LastIndex(l)
  {
    var i, last := Probe(l, f.id), LastIndex(l);
    if !Matches(l, f, i) then (i - a) + (last - a) + 1
    else if i == last && Lookup(l.matched, f.id) == last && Lookup(l.next, f.id) == last + 1 then 0
    else last - i + 1
  }

  lemma Closer(l: NodeState, f: NodeState, l': NodeState, f': NodeState, a: nat)
    requires Pair(l, f, a) && Exchange(l, f, l', f') && Open(l, f)
    ensures Pair(l', f', a) && SameLeader(l, l') && f'.id == f.id && Open(l', f')
    ensures Distance(l', f', a) < Distance(l, f, a) || Distance(l', f', a) == 0
  {
    hide Exchange, SameTo, Quiet;
    if Matches(l, f, Probe(l, f.id)) { Advances(l, f, l', f', a); } else { Retreats(l, f, l', f', a); }
  }

  lemma NoDistance(l: NodeState, f: NodeState, a: nat)
    requires Pair(l, f, a)
    ensures Distance(l, f, a) <= 2 * (LastIndex(l) - a) + 1
    ensures CaughtUp(l, f, a) <==> Distance(l, f, a) == 0
  {
    hide Quiet;
  }

  ghost predicate Exchanges(ls: seq<NodeState>, fs: seq<NodeState>) {
    0 < |ls| == |fs| && forall k :: 0 <= k < |ls| - 1 ==> Exchange(ls[k], fs[k], ls[k + 1], fs[k + 1])
  }

  lemma {:induction false} Approaches(ls: seq<NodeState>, fs: seq<NodeState>, a: nat, k: nat)
    requires Exchanges(ls, fs) && Pair(ls[0], fs[0], a) && Open(ls[0], fs[0]) && k < |ls|
    ensures Pair(ls[k], fs[k], a) && Open(ls[k], fs[k]) && SameLeader(ls[0], ls[k]) && fs[k].id == fs[0].id
    ensures Distance(ls[k], fs[k], a) == 0 || Distance(ls[k], fs[k], a) + k <= Distance(ls[0], fs[0], a)
  {
    hide Exchange, Pair, Open, Distance;
    if k > 0 {
      Approaches(ls, fs, a, k - 1);
      Closer(ls[k - 1], fs[k - 1], ls[k], fs[k], a);
    }
  }

  /** A follower whose log is longer than the leader's and does not fit is never brought into line:
      its answers are dropped, and the leader repeats the same offer. */
  lemma {:induction false} Stranded(ls: seq<NodeState>, fs: seq<NodeState>, a: nat, k: nat)
    requires Exchanges(ls, fs) && Pair(ls[0], fs[0], a) && !Open(ls[0], fs[0]) && k < |ls|
    ensures Pair(ls[k], fs[k], a) && !Open(ls[k], fs[k]) && fs[k].log == fs[0].log && fs[k].id == fs[0].id
    ensures Probe(ls[k], fs[0].id) == Probe(ls[0], fs[0].id) && Lookup(ls[k].matched, fs[0].id) == Lookup(ls[0].matched, fs[0].id)
    ensures SameLeader(ls[0], ls[k]) && !CaughtUp(ls[k], fs[k], a)
  {
    hide Exchange, SameTo, Quiet;
    if k > 0 {
      Stranded(ls, fs, a, k - 1);
      Retreats(ls[k - 1], fs[k - 1], ls[k], fs[k], a);
    }
  }

  /** After enough exchanges the follower has caught up exactly when the first offer fitted or its
      log was no longer than the leader's; and then it has committed as much as the leader had. */
  lemma CatchesUpExactly(ls: seq<NodeState>, fs: seq<NodeState>, a: nat)
    requires Exchanges(ls, fs) && Pair(ls[0], fs[0], a) && |ls| > 2 * (LastIndex(ls[0]) - a) + 2
    ensures CaughtUp(ls[|ls| - 1], fs[|ls| - 1], a) <==> Open(ls[0], fs[0])
    ensures Open(ls[0], fs[0]) ==> Min(ls[0].commit, LastIndex(ls[0])) <= fs[|ls| - 1].commit
  {
    hide Exchange, Open, Distance, CaughtUp, Quiet, SameTo;
    var k := |ls| - 1;
    if Open(ls[0], fs[0]) {
      NoDistance(ls[0], fs[0], a);
      Approaches(ls, fs, a, k - 1);
      NoDistance(ls[k - 1], fs[k - 1], a);
      LastExchange(ls[k - 1], fs[k - 1], ls[k], fs[k], a);
    } else {
      Stranded(ls, fs, a, k);
    }
  }

  lemma LastExchange(l: NodeState, f: NodeState, l': NodeState, f': NodeState, a: nat)
    requires Pair(l, f, a) && Exchange(l, f, l', f') && CaughtUp(l, f, a)
    ensures CaughtUp(l', f', a) && Min(l.commit, LastIndex(l)) <= f'.commit
  {
    hide Exchange, SameTo, Quiet;
    Advances(l, f, l', f', a);
  }

  // ----- Heartbeats -----

  lemma SameVoter(l: NodeState, l1: NodeState, id: Id)
    requires Valid(l) && l1 == l.(next := l1.next, matched := l1.matched, outbound := l1.outbound) && NodeId(id)
    ensures IsVoter(l1, id) == IsVoter(l, id)
  {
    hide And, Or, NodeBit;
    J.SameVoters(l, l1, Max(l.commit + 1, l.baseIndex + 1), LastIndex(l), Voters(l.votersOld, l.votersNew));
  }

  /** The voting peers from the `k`-th on. */
  function VotingFrom(l: NodeState, k: nat): seq<Id>
    requires Valid(l) && k <= |l.peers|
    decreases |l.peers| - k
  {
    if k == |l.peers| then [] else (if IsVoter(l, l.peers[k]) then [l.peers[k]] else []) + VotingFrom(l, k + 1)
  }

  /** The message brings `p` the entry it needs next, or the snapshot when that is compacted away. */
  predicate Serves(l: NodeState, p: Id, m: Message)
    requires 0 < |l.log|
  {
    if Lookup(l.next, p) <= l.baseIndex then m == Blank(InstallSnapshot, l.id, p, l.term).(snapshot := l.snapshot) else Offers(l, p, m)
  }

  lemma {:induction false} SameVoting(l: NodeState, l1: NodeState, k: nat)
    requires Valid(l) && l1 == l.(next := l1.next, matched := l1.matched, outbound := l1.outbound) && k <= |l.peers|
    ensures VotingFrom(l1, k) == VotingFrom(l, k)
    decreases |l.peers| - k
  {
    hide IsVoter;
    if k < |l.peers| {
      SameVoter(l, l1, l.peers[k]);
      SameVoting(l, l1, k + 1);
    }
  }

  /** Clamping the next index changes nothing that is sent. */
  lemma SameService(l: NodeState, r: NodeState, q: Id, m: Message)
    requires Valid(l) && r == l.(next := r.next, outbound := r.outbound)
    requires Lookup(r.next, q) == Lookup(l.next, q) || (Lookup(r.next, q) == LastIndex(l) + 1 < Lookup(l.next, q))
    ensures Serves(r, q, m) == Serves(l, q, m)
  {
    if Lookup(l.next, q) > l.baseIndex {
      assert Probe(r, q) == Probe(l, q);
      assert TermAt(r, Probe(l, q)) == TermAt(l, Probe(l, q)) && EntryAt(r, Probe(l, q) + 1) == EntryAt(l, Probe(l, q) + 1);
    }
  }

  lemma Clamps(l: NodeState, p: Id, q: Id)
    requires Valid(l)
    ensures var r := AppendToContext(l, p, 0);
      Lookup(r.next, q) == Lookup(l.next, q) || (Lookup(r.next, q) == LastIndex(l) + 1 < Lookup(l.next, q))
  {
    hide AppendMessage;
  }

  lemma ServesOne(l: NodeState, p: Id)
    requires Valid(l)
    ensures var r := AppendToContext(l, p, 0);
      && |r.outbound| == |l.outbound| + 1 && l.outbound <= r.outbound && Serves(l, p, r.outbound[|l.outbound|])
      && r == l.(next := r.next, outbound := r.outbound)
  {
    hide Offers, AppendMessage;
    if Lookup(l.next, p) > l.baseIndex { SendsOffer(l, p); }
  }

  predicate AllServed(l: NodeState, to: seq<Id>, ms: seq<Message>)
    requires 0 < |l.log|
  {
    |to| == |ms| && forall j :: 0 <= j < |to| ==> Serves(l, to[j], ms[j])
  }

  lemma OneMoreServed(l: NodeState, p: Id, to: seq<Id>, m: Message, ms: seq<Message>)
    requires Valid(l) && Serves(l, p, m) && AllServed(AppendToContext(l, p, 0), to, ms)
    ensures AllServed(l, [p] + to, [m] + ms)
  {
    hide Serves, AppendToContext;
    var l1 := AppendToContext(l, p, 0);
    forall j | 0 <= j < |to| ensures Serves(l, to[j], ms[j]) {
      Clamps(l, p, to[j]);
      SameService(l, l1, to[j], ms[j]);
    }
  }

  /** A broadcast serves every voting peer once, in order, and nobody else. */
  lemma {:induction false} BroadcastServes(l: NodeState, k: nat)
    requires Valid(l) && k <= |l.peers|
    ensures var r := BroadcastFrom(l, k);
      l.outbound <= r.outbound && AllServed(l, VotingFrom(l, k), r.outbound[|l.outbound|..])
    decreases |l.peers| - k
  {
    hide IsVoter, Serves, AppendToContext, AllServed;
    var r, n := BroadcastFrom(l, k), |l.outbound|;
    if k == |l.peers| {
      NobodyServed(l);
      assert r.outbound[n..] == [];
    } else if IsVoter(l, l.peers[k]) {
      var p := l.peers[k];
      var l1 := AppendToContext(l, p, 0);
      ServesOne(l, p);
      SameVoting(l, l1, k + 1);
      BroadcastServes(l1, k + 1);
      OneMoreServed(l, p, VotingFrom(l, k + 1), l1.outbound[n], r.outbound[n + 1..]);
      assert r.outbound[n..] == [l1.outbound[n]] + r.outbound[n + 1..];
    } else {
      BroadcastServes(l, k + 1);
      assert VotingFrom(l, k) == VotingFrom(l, k + 1);
    }
  }

  lemma NobodyServed(l: NodeState)
    requires 0 < |l.log|
    ensures AllServed(l, [], [])
  {
  }

  /** An idle leader is silent for two ticks and serves every voting peer on the third. */
  lemma HeartbeatServes(l: NodeState)
    requires Valid(l) && !l.faulted && l.state == Leader && l.elapsed == 0
    ensures Tick(Tick(l)) == l.(elapsed := 2)
    ensures var r := Tick(Tick(Tick(l)));
      r.elapsed == 0 && l.outbound <= r.outbound && AllServed(l, VotingFrom(l, 0), r.outbound[|l.outbound|..])
  {
    hide BroadcastFrom, Serves, StartPreVote;
    BroadcastServes(l, 0);
    assert Tick(Tick(l)) == l.(elapsed := 2);
  }

  // ----- A follower left behind -----

  /** Such a pair goes on exchanging messages; a refusal writes nothing. */
  lemma KeepsRefusing(l: NodeState, f: NodeState, a: nat) returns (l': NodeState, f': NodeState)
    requires Pair(l, f, a) && !Open(l, f) && f.term == l.term
    ensures Exchange(l, f, l', f')
  {
    hide AppendToContext, OnAppend, Acceptable, SameTo, OnAppendResponse;
    SendsOffer(l, f.id);
    var l1 := AppendToContext(l, f.id, 0);
    var m := Last(l1.outbound);
    OfferIsAcceptable(l, f.id, m);
    Answers(f, m);
    f' := Step(f, m);
    l' := Step(l1, Last(f'.outbound));
    IgnoresLongLogs(l1, Last(f'.outbound));
  }

  /** A new leader whose log holds nothing but its first entry, and a node that led before and still
      has two entries of its own that nobody else holds. */
  lemma LongTail(disk: S.Disk) returns (l: NodeState, f: NodeState)
    ensures Pair(l, f, 0) && !Open(l, f) && f.term == l.term && LastIndex(l) == 1 && LastIndex(f) == 2
  {
    hide MaskFrom, NodeBit;
    var own := ZERO_ENTRY.(term := 1, command := 7);
    l := NewNode(1, [2, 3], 9, disk).(state := Leader, leader := 1, term := 2, log := [ZERO_ENTRY, ZERO_ENTRY.(term := 2, kind := Noop)], next := map[2 := 2, 3 := 2]);
    f := NewNode(2, [1, 3], 9, disk).(term := 2, log := [ZERO_ENTRY, own, own]);
    assert forall i: nat :: Matches(l, f, i) ==> i == 0;
  }
}
