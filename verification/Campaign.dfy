/**
 * What it takes to win an election: a node that times out becomes leader of the next term exactly
 * when the voters that hear from no leader and whose logs are not ahead are, with it, a majority.
 */
module Campaign {
  import opened Quorums
  import opened Bits
  import opened RaftTypes
  import opened NodeModel
  import opened FixedVoters
  import C = CatchUp
  import S = StableStore

  // ----- Asking -----

  /** The request of `c` to node `p`. */
  function Ask(c: NodeState, p: Id, kind: MessageType, term: nat): Message
    requires 0 < |c.log|
  {
    Blank(kind, c.id, p, term).(logIndex := LastIndex(c), logTerm := TermAt(c, LastIndex(c)))
  }

  function Asks(c: NodeState, kind: MessageType, term: nat): seq<Message>
    requires 0 < |c.log|
  {
    seq(|c.peers|, i requires 0 <= i < |c.peers| => Ask(c, c.peers[i], kind, term))
  }

  lemma {:induction false} AsksFrom(c: NodeState, kind: MessageType, term: nat, k: nat)
    requires 0 < |c.log| && k <= |c.peers|
    ensures AskFrom(c, kind, term, k).outbound == c.outbound + Asks(c, kind, term)[k..]
    decreases |c.peers| - k
  {
    if k < |c.peers| {
      var c1 := Emit(c, Ask(c, c.peers[k], kind, term));
      AsksFrom(c1, kind, term, k + 1);
      assert Asks(c1, kind, term) == Asks(c, kind, term);
      assert Asks(c, kind, term)[k..] == [Ask(c, c.peers[k], kind, term)] + Asks(c, kind, term)[k + 1..];
    }
  }

  /** Every peer is asked once, in order. */
  lemma AsksAll(c: NodeState, kind: MessageType, term: nat)
    requires 0 < |c.log|
    ensures AskAll(c, kind, term) == c.(outbound := c.outbound + Asks(c, kind, term))
  {
    AsksFrom(c, kind, term, 0);
  }

  // ----- Answering -----

  /** The log of `f` is not ahead of the log of `c`. */
  predicate NotAhead(f: NodeState, c: NodeState)
    requires 0 < |f.log| && 0 < |c.log|
  {
    var x, y := TermAt(f, LastIndex(f)), TermAt(c, LastIndex(c));
    x < y || (x == y && LastIndex(f) <= LastIndex(c))
  }

  predicate HearsLeader(f: NodeState) {
    f.leader != 0 && f.elapsed < f.timeout
  }

  predicate Willing(f: NodeState, c: NodeState)
    requires 0 < |f.log| && 0 < |c.log|
  {
    f.term <= c.term && NotAhead(f, c) && !HearsLeader(f)
  }

  ghost predicate Member(n: NodeState, voters: set<Id>) {
    Fixed(n, voters) && !n.faulted
  }

  /** Asking for a pre-vote changes nothing; it is granted exactly by a willing voter. */
  lemma PreVoteAnswer(f: NodeState, c: NodeState, voters: set<Id>)
    requires Member(f, voters) && Member(c, voters)
    ensures Valid(f) && NodeId(c.id) && 0 < |c.log|
    ensures Step(f, Ask(c, f.id, PreVote, c.term + 1)) == f.(outbound := f.outbound + [Blank(PreVoteResponse, f.id, c.id, c.term + 1).(reject := !Willing(f, c))])
  {
    hide IsVoter, VoterMaskIs, PlainLog;
    FixedIsValid(f, voters);
    FixedVoter(f, voters, c.id);
  }

  /** A vote in a new term is granted exactly by a voter whose log is not ahead. */
  lemma VoteAnswer(f: NodeState, c: NodeState, voters: set<Id>)
    requires Member(f, voters) && Member(c, voters) && f.term < c.term
    ensures Valid(f) && NodeId(c.id) && 0 < |c.log|
    ensures var r := Step(f, Ask(c, f.id, RequestVote, c.term));
      || r.faulted
      || (&& r.outbound != [] && r.outbound[|r.outbound| - 1] == Blank(RequestVoteResponse, f.id, c.id, c.term).(reject := !NotAhead(f, c))
          && r.term == c.term && if NotAhead(f, c) then r.votedFor == c.id && r.elapsed == 0 else r.votedFor == 0 && r.elapsed == f.elapsed)
  {
    hide IsVoter, VoterMaskIs, PlainLog, S.SaveHardState;
    FixedIsValid(f, voters);
    var m := Ask(c, f.id, RequestVote, c.term);
    var n1 := AdoptTerm(f, m);
    if !n1.faulted {
      assert Fixed(n1, voters);
      FixedVoter(n1, voters, c.id);
    }
  }

  // ----- Counting pre-votes -----

  function Response(kind: MessageType, from: Id, to: Id, term: nat, granted: bool): Message {
    Blank(kind, from, to, term).(reject := !granted)
  }

  /** Still short of a majority: `heard` have granted a pre-vote, and nothing else has changed. */
  ghost predicate Canvassing(c: NodeState, n: NodeState, voters: set<Id>, heard: set<Id>) {
    && n == c.(elapsed := 0, preVoteTerm := c.term + 1, leader := 0, preVoteMask := n.preVoteMask, outbound := n.outbound)
    && Members(n.preVoteMask) == heard && !IsQuorum(voters, heard)
  }

  /** Standing for the next term, with its own vote stored. */
  ghost predicate Standing(c: NodeState, n: NodeState, voters: set<Id>) {
    && Member(n, voters) && n.id == c.id && n.peers == c.peers && n.log == c.log && n.baseIndex == c.baseIndex
    && n.state == Candidate && n.term == c.term + 1 && n.votedFor == c.id && Members(n.voteMask) == {c.id}
  }

  lemma Alone(n: NodeState, voters: set<Id>)
    requires Fixed(n, voters) && !IsQuorum(voters, {n.id})
    ensures !QuorumMask(n, NodeBit(n.id)) && Members(NodeBit(n.id)) == {n.id}
  {
    hide QuorumMask, NodeBit, IsQuorum, PlainLog, VoterMaskIs;
    BitMembers(n.id);
    FixedQuorum(n, voters, NodeBit(n.id));
  }

  /** The timeout of a node that is no majority by itself: it asks every peer for a pre-vote. */
  lemma TimesOut(c: NodeState, voters: set<Id>)
    requires Member(c, voters) && c.state != Leader && c.elapsed + 1 >= c.timeout && !IsQuorum(voters, {c.id})
    ensures Valid(c) && Canvassing(c, Tick(c), voters, {c.id})
    ensures Tick(c).outbound == c.outbound + Asks(c, PreVote, c.term + 1)
  {
    hide AskAll, QuorumMask, NodeBit, IsQuorum, PlainLog, VoterMaskIs, Members;
    FixedIsValid(c, voters);
    var n1 := c.(elapsed := 0, preVoteTerm := c.term + 1, leader := 0, preVoteMask := NodeBit(c.id));
    AsksAll(n1, PreVote, c.term + 1);
    assert Asks(n1, PreVote, c.term + 1) == Asks(c, PreVote, c.term + 1);
    var n2 := AskAll(n1, PreVote, c.term + 1);
    Alone(n2, voters);
  }

  /** A majority of pre-votes starts the election: the vote is stored and every peer is asked. */
  lemma Stands(n: NodeState, voters: set<Id>)
    requires Member(n, voters) && !IsQuorum(voters, {n.id})
    ensures Valid(n)
    ensures var r := StartElection(n);
      r.faulted || (Standing(n, r, voters) && r.outbound == n.outbound + Asks(r, RequestVote, r.term))
  {
    hide AskAll, QuorumMask, NodeBit, IsQuorum, PlainLog, VoterMaskIs, Members, S.SaveHardState;
    FixedIsValid(n, voters);
    var n1 := Persist(n, HardState(n.term + 1, n.id, n.commit));
    if !n1.faulted {
      var n2 := n1.(state := Candidate, term := n.term + 1, votedFor := n.id, elapsed := 0, voteMask := NodeBit(n.id), preVoteMask := 0);
      AsksAll(n2, RequestVote, n2.term);
      var n3 := AskAll(n2, RequestVote, n2.term);
      assert Asks(n3, RequestVote, n3.term) == Asks(n2, RequestVote, n2.term);
      Alone(n3, voters);
    }
  }

  lemma HearsPreVote(c: NodeState, n: NodeState, voters: set<Id>, heard: set<Id>, from: Id, granted: bool)
    requires Member(c, voters) && c.state != Leader && from in voters && Canvassing(c, n, voters, heard) && !IsQuorum(voters, {c.id})
    ensures Valid(n) && NodeId(from)
    ensures var r, more := Step(n, Response(PreVoteResponse, from, c.id, c.term + 1, granted)), if granted then heard + {from} else heard;
      if IsQuorum(voters, more) then r.faulted || Standing(c, r, voters) else Canvassing(c, r, voters, more)
  {
    hide QuorumMask, NodeBit, IsQuorum, PlainLog, VoterMaskIs, Members, StartElection, IsVoter, Or;
    FixedIsValid(n, voters);
    FixedVoter(n, voters, from);
    var n1 := n.(preVoteMask := Or(n.preVoteMask, NodeBit(from)));
    OrMembers(n.preVoteMask, NodeBit(from));
    BitMembers(from);
    FixedQuorum(n1, voters, n1.preVoteMask);
    Stands(n1, voters);
  }

  /** Later pre-votes do not count any more. */
  lemma StandsFirm(c: NodeState, n: NodeState, voters: set<Id>, from: Id, granted: bool)
    requires Standing(c, n, voters) && from in voters
    ensures Valid(n) && NodeId(from) && Step(n, Response(PreVoteResponse, from, c.id, c.term + 1, granted)) == n
  {
    hide PlainLog, VoterMaskIs;
    FixedIsValid(n, voters);
  }

  // ----- Counting votes -----

  ghost predicate Polling(c: NodeState, n: NodeState, voters: set<Id>, votes: set<Id>) {
    n == c.(voteMask := n.voteMask) && Members(n.voteMask) == votes && !IsQuorum(voters, votes)
  }

  /** Leader, with an empty entry of its term at the end of the log, nothing known of the peers, and
      every one of them to be offered what follows. */
  predicate Leads(c: NodeState, n: NodeState) {
    && Valid(n) && n.state == Leader && n.term == c.term && n.id == c.id && n.log == c.log + [ZERO_ENTRY.(term := c.term, kind := Noop)]
    && n.peers == c.peers && forall p :: p in n.peers ==> Lookup(n.next, p) == LastIndex(n) + 1 && Lookup(n.matched, p) == 0
  }

  lemma {:induction false} ResetsPeers(n: NodeState, next: nat, k: nat, p: Id)
    requires k <= |n.peers|
    ensures var r := ResetPeersFrom(n, next, k);
      if p in n.peers[k..] then Lookup(r.next, p) == next && Lookup(r.matched, p) == 0
      else Lookup(r.next, p) == Lookup(n.next, p) && Lookup(r.matched, p) == Lookup(n.matched, p)
    decreases |n.peers| - k
  {
    if k < |n.peers| {
      var n1 := n.(next := n.next[n.peers[k] := next], matched := n.matched[n.peers[k] := 0]);
      ResetsPeers(n1, next, k + 1, p);
      assert n.peers[k..] == [n.peers[k]] + n.peers[k + 1..];
    }
  }

  lemma StartsAfresh(n: NodeState)
    requires Valid(n)
    ensures var r := BroadcastAppend(ResetPeersFrom(n, LastIndex(n) + 1, 0));
      forall p :: p in n.peers ==> Lookup(r.next, p) == LastIndex(n) + 1 && Lookup(r.matched, p) == 0
  {
    hide ResetPeersFrom, BroadcastFrom;
    var n1 := ResetPeersFrom(n, LastIndex(n) + 1, 0);
    assert n.peers[0..] == n.peers;
    forall p | p in n.peers ensures Lookup(BroadcastFrom(n1, 0).next, p) == LastIndex(n) + 1 && Lookup(n1.matched, p) == 0 {
      ResetsPeers(n, LastIndex(n) + 1, 0, p);
      C.BroadcastLeaves(n1, 0, p);
    }
  }

  lemma TakesOffice(n: NodeState, voters: set<Id>)
    requires Member(n, voters) && !IsQuorum(voters, {n.id})
    ensures Valid(n)
    ensures var r := BecomeLeader(n); r.faulted || Leads(n, r)
  {
    hide QuorumMask, NodeBit, IsQuorum, VoterMaskIs, Members, S.Append, BroadcastFrom, ResetPeersFrom;
    FixedIsValid(n, voters);
    var e := ZERO_ENTRY.(term := n.term, kind := Noop);
    var n0 := n.(state := Leader, leader := n.id, elapsed := 0);
    var n1 := Settle(n0, S.Append(n0.disk, LastIndex(n0) + 1, e));
    if !n1.faulted {
      var n2 := n1.(log := n1.log + [e]);
      assert PlainLog(n2.log) by { PlainMore(n1.log, e); }
      Alone(n2, voters);
      StartsAfresh(n2);
    }
  }

  lemma PlainMore(log: seq<Entry>, e: Entry)
    requires PlainLog(log) && PlainEntry(e)
    ensures PlainLog(log + [e])
  {
  }

  lemma HearsVote(c: NodeState, n: NodeState, voters: set<Id>, votes: set<Id>, from: Id, granted: bool)
    requires Member(c, voters) && c.state == Candidate && from in voters && Polling(c, n, voters, votes) && !IsQuorum(voters, {c.id})
    ensures Valid(n) && NodeId(from)
    ensures var r, more := Step(n, Response(RequestVoteResponse, from, c.id, c.term, granted)), if granted then votes + {from} else votes;
      if IsQuorum(voters, more) then r.faulted || Leads(c, r) else Polling(c, r, voters, more)
  {
    hide QuorumMask, NodeBit, IsQuorum, PlainLog, VoterMaskIs, Members, BecomeLeader, IsVoter, Or;
    FixedIsValid(n, voters);
    FixedVoter(n, voters, from);
    var n1 := n.(voteMask := Or(n.voteMask, NodeBit(from)));
    OrMembers(n.voteMask, NodeBit(from));
    BitMembers(from);
    FixedQuorum(n1, voters, n1.voteMask);
    TakesOffice(n1, voters);
  }

  lemma LeadsOn(c: NodeState, n: NodeState, from: Id, granted: bool)
    requires Leads(c, n) && NodeId(from)
    ensures Step(n, Response(RequestVoteResponse, from, c.id, c.term, granted)) == n
  {
  }

  // ----- A whole election -----

  /** The other voters that take part, none ahead of the candidate in term. */
  ghost predicate Others(c: NodeState, fs: seq<NodeState>, voters: set<Id>) {
    forall i :: 0 <= i < |fs| ==> Member(fs[i], voters) && fs[i].id != c.id && fs[i].term <= c.term
  }

  /** What `f` answers to `m`. */
  function Answer(f: NodeState, m: Message): Message
    requires Valid(f) && NodeId(m.from)
  {
    var r := Step(f, m);
    if r.outbound == [] then m else r.outbound[|r.outbound| - 1]
  }

  /** `n'` is `n` after the answer of `f` to `m`, with no write failing. */
  ghost predicate Takes(n: NodeState, f: NodeState, m: Message, n': NodeState) {
    && Valid(n) && Valid(f) && NodeId(m.from) && !Step(f, m).faulted && NodeId(Answer(f, m).from)
    && n' == Step(n, Answer(f, m)) && !n'.faulted
  }

  /** After its timeout the candidate gets the answers of all others to its pre-vote request. */
  ghost predicate Canvass(c: NodeState, fs: seq<NodeState>, cs: seq<NodeState>) {
    && |cs| == |fs| + 1 && Valid(c) && cs[0] == Tick(c)
    && forall j :: 0 <= j < |fs| ==> Takes(cs[j], fs[j], Ask(c, fs[j].id, PreVote, c.term + 1), cs[j + 1])
  }

  /** Then it gets their answers to its vote request. */
  ghost predicate Poll(d: NodeState, fs: seq<NodeState>, ds: seq<NodeState>) {
    && |ds| == |fs| + 1 && Valid(d) && ds[0] == d
    && forall j :: 0 <= j < |fs| ==> Takes(ds[j], fs[j], Ask(d, fs[j].id, RequestVote, d.term), ds[j + 1])
  }

  ghost predicate Supports(c: NodeState, f: NodeState) {
    0 < |c.log| && 0 < |f.log| && Willing(f, c)
  }

  ghost predicate Concedes(c: NodeState, f: NodeState) {
    0 < |c.log| && 0 < |f.log| && NotAhead(f, c)
  }

  /** The candidate and those of the first `j` others that support it. */
  ghost function Supporters(c: NodeState, fs: seq<NodeState>, j: nat): set<Id>
    requires j <= |fs|
  {
    {c.id} + set i: nat | i < j && Supports(c, fs[i]) :: fs[i].id
  }

  ghost function Conceding(c: NodeState, fs: seq<NodeState>, j: nat): set<Id>
    requires j <= |fs|
  {
    {c.id} + set i: nat | i < j && Concedes(c, fs[i]) :: fs[i].id
  }

  lemma OneMoreSupporter(c: NodeState, fs: seq<NodeState>, j: nat)
    requires j < |fs|
    ensures Supporters(c, fs, j + 1) == if Supports(c, fs[j]) then Supporters(c, fs, j) + {fs[j].id} else Supporters(c, fs, j)
    ensures Conceding(c, fs, j + 1) == if Concedes(c, fs[j]) then Conceding(c, fs, j) + {fs[j].id} else Conceding(c, fs, j)
  {
    hide Supports, Concedes;
  }

  lemma IsAVoter(f: NodeState, voters: set<Id>)
    requires Member(f, voters)
    ensures f.id in voters && NodeId(f.id) && Valid(f) && 0 < |f.log|
  {
    hide PlainLog, VoterMaskIs;
  }

  /** The answers so far start the election exactly when they make a majority. */
  lemma {:induction false} CanvassedTo(c: NodeState, fs: seq<NodeState>, cs: seq<NodeState>, voters: set<Id>, j: nat)
    requires Member(c, voters) && c.state != Leader && c.elapsed + 1 >= c.timeout && !IsQuorum(voters, {c.id})
    requires Others(c, fs, voters) && Canvass(c, fs, cs) && j <= |fs|
    ensures if IsQuorum(voters, Supporters(c, fs, j)) then Standing(c, cs[j], voters) else Canvassing(c, cs[j], voters, Supporters(c, fs, j))
    decreases j
  {
    hide IsQuorum, Tick, Step, Fixed, Standing, Canvassing, Supporters, Willing, Ask;
    if j == 0 {
      TimesOut(c, voters);
      assert Supporters(c, fs, 0) == {c.id} by { NobodyYet(c, fs); }
    } else {
      var k := j - 1;
      CanvassedTo(c, fs, cs, voters, k);
      OneMoreSupporter(c, fs, k);
      var f := fs[k];
      IsAVoter(f, voters);
      PreVoteAnswer(f, c, voters);
      assert Takes(cs[k], f, Ask(c, f.id, PreVote, c.term + 1), cs[j]);
      var a := Response(PreVoteResponse, f.id, c.id, c.term + 1, Willing(f, c));
      assert cs[j] == Step(cs[k], a);
      if IsQuorum(voters, Supporters(c, fs, k)) {
        StandsFirm(c, cs[k], voters, f.id, Willing(f, c));
        QuorumGrows(voters, Supporters(c, fs, k), Supporters(c, fs, j));
      } else {
        HearsPreVote(c, cs[k], voters, Supporters(c, fs, k), f.id, Willing(f, c));
      }
    }
  }

  lemma NobodyYet(c: NodeState, fs: seq<NodeState>)
    ensures Supporters(c, fs, 0) == {c.id} && Conceding(c, fs, 0) == {c.id}
  {
  }

  /** The votes so far make a leader exactly when they are a majority. */
  lemma {:induction false} PolledTo(d: NodeState, fs: seq<NodeState>, ds: seq<NodeState>, voters: set<Id>, j: nat)
    requires Member(d, voters) && d.state == Candidate && Members(d.voteMask) == {d.id} && !IsQuorum(voters, {d.id})
    requires (forall i :: 0 <= i < |fs| ==> Member(fs[i], voters) && fs[i].term < d.term) && Poll(d, fs, ds) && j <= |fs|
    ensures if IsQuorum(voters, Conceding(d, fs, j)) then Leads(d, ds[j]) else Polling(d, ds[j], voters, Conceding(d, fs, j))
    decreases j
  {
    hide IsQuorum, Step, Fixed, Leads, Conceding, NotAhead, Ask, Members;
    if j == 0 {
      NobodyYet(d, fs);
    } else {
      var k := j - 1;
      PolledTo(d, fs, ds, voters, k);
      OneMoreSupporter(d, fs, k);
      var f := fs[k];
      IsAVoter(f, voters);
      VoteAnswer(f, d, voters);
      assert Takes(ds[k], f, Ask(d, f.id, RequestVote, d.term), ds[j]);
      var a := Response(RequestVoteResponse, f.id, d.id, d.term, NotAhead(f, d));
      assert ds[j] == Step(ds[k], a);
      if IsQuorum(voters, Conceding(d, fs, k)) {
        LeadsOn(d, ds[k], f.id, NotAhead(f, d));
        QuorumGrows(voters, Conceding(d, fs, k), Conceding(d, fs, j));
      } else {
        HearsVote(d, ds[k], voters, Conceding(d, fs, k), f.id, NotAhead(f, d));
      }
    }
  }

  /** A node that times out stands for the next term exactly when it has a majority of supporters,
      and then it wins: its supporters vote for it. */
  lemma WinsExactly(c: NodeState, fs: seq<NodeState>, cs: seq<NodeState>, ds: seq<NodeState>, voters: set<Id>)
    requires Member(c, voters) && c.state != Leader && c.elapsed + 1 >= c.timeout && !IsQuorum(voters, {c.id})
    requires Others(c, fs, voters) && Canvass(c, fs, cs)
    requires cs[|fs|].term > c.term ==> Poll(cs[|fs|], fs, ds)
    ensures cs[|fs|].term == if IsQuorum(voters, Supporters(c, fs, |fs|)) then c.term + 1 else c.term
    ensures IsQuorum(voters, Supporters(c, fs, |fs|)) ==> |ds| == |fs| + 1 && Leads(cs[|fs|], ds[|fs|])
  {
    hide IsQuorum, Takes, Fixed, Supporters, Leads, Members;
    var d := cs[|fs|];
    CanvassedTo(c, fs, cs, voters, |fs|);
    if IsQuorum(voters, Supporters(c, fs, |fs|)) {
      PolledTo(d, fs, ds, voters, |fs|);
      MoreVotes(c, d, fs);
      QuorumGrows(voters, Supporters(c, fs, |fs|), Conceding(d, fs, |fs|));
    }
  }

  lemma MoreVotes(c: NodeState, d: NodeState, fs: seq<NodeState>)
    requires d.log == c.log && d.baseIndex == c.baseIndex && d.id == c.id
    ensures Supporters(c, fs, |fs|) <= Conceding(d, fs, |fs|)
  {
    forall i: nat | i < |fs| && Supports(c, fs[i]) ensures Concedes(d, fs[i]) {}
  }

  // ----- Handing leadership over -----

  /** The order to campaign is sent exactly to another voter known to hold the whole log. */
  lemma OrdersExactly(l: NodeState, target: Id, voters: set<Id>)
    requires Member(l, voters) && NodeId(target) && l.state == Leader
    ensures Valid(l)
    ensures var r := TransferLeadership(l, target);
      && l.outbound <= r.outbound
      && if target != l.id && target in voters && Lookup(l.matched, target) >= LastIndex(l)
         then r == Emit(l, Blank(TimeoutNow, l.id, target, l.term))
         else forall m :: m in r.outbound[|l.outbound|..] ==> m.kind != TimeoutNow
  {
    hide IsVoter, VoterMaskIs, PlainLog, TermAt, EntryAt;
    FixedIsValid(l, voters);
    FixedVoter(l, voters, target);
  }

  /** It makes a follower of that leader stand at once, whoever it hears from; any other node
      ignores it. */
  lemma ObeysExactly(f: NodeState, from: Id, voters: set<Id>)
    requires Member(f, voters) && !IsQuorum(voters, {f.id}) && NodeId(from)
    ensures Valid(f)
    ensures var r := Step(f, Blank(TimeoutNow, from, f.id, f.term));
      if f.state == Follower && f.leader == from then r.faulted || Standing(f, r, voters) else r == f
  {
    hide StartElection, IsQuorum, VoterMaskIs, PlainLog, Standing;
    FixedIsValid(f, voters);
    Stands(f, voters);
  }
}
