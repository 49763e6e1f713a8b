/** A read barrier completes exactly when a majority has answered it. */
module ReadProgress {
  import opened Quorums
  import opened Bits
  import opened RaftTypes
  import opened NodeModel
  import opened FixedVoters
  import S = StableStore

  ghost predicate Leading(l: NodeState, voters: set<Id>) {
    Fixed(l, voters) && !l.faulted && l.state == Leader
  }

  /** A barrier for `context` that `heard` have answered. */
  ghost predicate Barrier(l: NodeState, voters: set<Id>, context: nat, heard: set<Id>) {
    && Leading(l, voters) && l.readContext == context && context != 0
    && Members(l.readAckMask) == heard && (l.readReady <==> IsQuorum(voters, heard))
  }

  predicate SameReads(l: NodeState, r: NodeState) {
    && r.readContext == l.readContext && r.readAckMask == l.readAckMask && r.readReady == l.readReady && r.readIndex == l.readIndex
    && r.term == l.term && r.id == l.id && r.log == l.log
  }

  // ----- Opening -----

  /** An accepted barrier has one answer, the leader's own, and every peer is sent its context. */
  lemma Opens(l: NodeState, voters: set<Id>, context: nat)
    requires Leading(l, voters)
    ensures Valid(l)
    ensures CanStartRead(l, context) ==> Barrier(StartReadIndex(l, context), voters, context, {l.id})
    ensures CanStartRead(l, context) && (forall p :: p in l.peers ==> 0 < Lookup(l.next, p)) ==>
      forall p :: p in l.peers ==> Asked(StartReadIndex(l, context).outbound, p, context)
  {
    hide AppendAllFrom, Asked, QuorumMask, NodeBit, PlainLog, VoterMaskIs, IsQuorum, Members;
    FixedIsValid(l, voters);
    if CanStartRead(l, context) {
      BitMembers(l.id);
      FixedQuorum(l, voters, NodeBit(l.id));
      var b := OpenBarrier(l, context);
      if forall p :: p in l.peers ==> 0 < Lookup(l.next, p) {
        forall p | p in l.peers ensures Asked(StartReadIndex(l, context).outbound, p, context) {
          var j: nat :| j < |l.peers| && l.peers[j] == p;
          AsksPeer(b, context, 0, j);
        }
      }
    }
  }

  ghost predicate Asked(ms: seq<Message>, p: Id, context: nat) {
    exists i :: 0 <= i < |ms| && ms[i].kind == Append && ms[i].to == p && ms[i].context == context
  }

  lemma AsksOne(l: NodeState, p: Id, context: nat)
    requires Valid(l) && l.baseIndex == 0 && 0 < Lookup(l.next, p)
    ensures var r := AppendToContext(l, p, context);
      && l.outbound <= r.outbound && Asked(r.outbound, p, context) && forall q :: 0 < Lookup(l.next, q) ==> 0 < Lookup(r.next, q)
  {
    hide TermAt, EntryAt;
    var r := AppendToContext(l, p, context);
    assert r.outbound[|l.outbound|].to == p;
  }

  lemma {:induction false} AsksPeer(l: NodeState, context: nat, k: nat, j: nat)
    requires Valid(l) && l.baseIndex == 0 && k <= |l.peers| && j < |l.peers| && forall p :: p in l.peers ==> 0 < Lookup(l.next, p)
    ensures l.outbound <= AppendAllFrom(l, context, k).outbound
    ensures k <= j ==> Asked(AppendAllFrom(l, context, k).outbound, l.peers[j], context)
    decreases |l.peers| - k
  {
    hide AppendToContext, Asked;
    if k < |l.peers| {
      var l1 := AppendToContext(l, l.peers[k], context);
      AsksOne(l, l.peers[k], context);
      AsksPeer(l1, context, k + 1, j);
      StaysAsked(l1.outbound, AppendAllFrom(l, context, k).outbound, l.peers[k], context);
    }
  }

  lemma StaysAsked(ms: seq<Message>, more: seq<Message>, p: Id, context: nat)
    requires ms <= more && Asked(ms, p, context)
    ensures Asked(more, p, context)
  {
    var i :| 0 <= i < |ms| && ms[i].kind == Append && ms[i].to == p && ms[i].context == context;
    assert more[i] == ms[i];
  }

  // ----- Counting -----

  lemma AckCounted(l: NodeState, m: Message, voters: set<Id>, heard: set<Id>)
    requires Barrier(l, voters, m.context, heard) && m.kind == AppendResponse && m.from in voters && m.term == l.term && !m.reject
    ensures Valid(l) && NodeId(m.from)
    ensures Barrier(CountReadAck(l, m), voters, m.context, heard + {m.from})
  {
    hide QuorumMask, NodeBit, PlainLog, VoterMaskIs, IsQuorum, Members, IsVoter, Or;
    FixedIsValid(l, voters);
    FixedVoter(l, voters, m.from);
    var n1 := l.(readAckMask := Or(l.readAckMask, NodeBit(m.from)));
    OrMembers(l.readAckMask, NodeBit(m.from));
    BitMembers(m.from);
    FixedQuorum(n1, voters, n1.readAckMask);
    if IsQuorum(voters, heard) { QuorumGrows(voters, heard, heard + {m.from}); }
  }

  lemma CommitReads(l: NodeState, voters: set<Id>, index: nat)
    requires Leading(l, voters)
    ensures Valid(l)
    ensures var r := CommitAt(l, index); r.faulted || (Leading(r, voters) && SameReads(l, r))
  {
    hide S.SaveHardState, ApplyFrom, BroadcastFrom, PlainLog, VoterMaskIs;
    FixedIsValid(l, voters);
    var n1 := Persist(l, HardState(l.term, l.votedFor, index));
    if !n1.faulted {
      var n2 := n1.(commit := index);
      FixedApply(n2, Max(l.commit + 1, n2.baseIndex + 1), index);
    }
  }

  lemma ConfirmReads(l: NodeState, voters: set<Id>, p: Id)
    requires Leading(l, voters)
    ensures Valid(l)
    ensures var r := Confirm(l, p); r.faulted || (Leading(r, voters) && SameReads(l, r))
  {
    hide CommitAt, FindCommittable, AppendToContext, PlainLog, VoterMaskIs;
    FixedIsValid(l, voters);
    var found := FindCommittable(l, LastIndex(l));
    if found.Some? { CommitReads(l, voters, found.value); }
  }

  /** An answer of a voter in the leader's term that fits its log. */
  predicate Answers(l: NodeState, m: Message, voters: set<Id>, context: nat) {
    m.kind == AppendResponse && m.from in voters && m.term == l.term && !m.reject && m.context == context && m.acked < |l.log|
  }

  lemma AnswerCounts(l: NodeState, m: Message, voters: set<Id>, heard: set<Id>)
    requires Barrier(l, voters, m.context, heard) && Answers(l, m, voters, m.context)
    ensures Valid(l) && NodeId(m.from)
    ensures var r := Step(l, m); r.faulted || (Barrier(r, voters, m.context, heard + {m.from}) && r.term == l.term && r.id == l.id && r.log == l.log)
  {
    hide CountReadAck, Confirm, Fixed, IsQuorum, Members;
    AckCounted(l, m, voters, heard);
    var n1 := CountReadAck(l, m);
    ConfirmReads(RecordMatch(n1, m.from, m.acked), voters, m.from) by { assert Leading(RecordMatch(n1, m.from, m.acked), voters) by { StillFixed(n1, m.from, m.acked, voters); } }
  }

  lemma StillFixed(l: NodeState, p: Id, index: nat, voters: set<Id>)
    requires Fixed(l, voters)
    ensures Fixed(RecordMatch(l, p, index), voters)
  {
  }

  // ----- Whole barriers -----

  ghost predicate Takes(l: NodeState, m: Message, l': NodeState, voters: set<Id>, context: nat) {
    Valid(l) && Answers(l, m, voters, context) && NodeId(m.from) && l' == Step(l, m) && !l'.faulted
  }

  /** `ls` are the states of a leader that opens a barrier and then takes the answers `ms`. */
  ghost predicate Gathers(l: NodeState, context: nat, ms: seq<Message>, ls: seq<NodeState>, voters: set<Id>) {
    && |ls| == |ms| + 1 && Valid(l) && CanStartRead(l, context) && ls[0] == StartReadIndex(l, context)
    && forall j :: 0 <= j < |ms| ==> Takes(ls[j], ms[j], ls[j + 1], voters, context)
  }

  ghost function Heard(l: NodeState, ms: seq<Message>, k: nat): set<Id>
    requires k <= |ms|
  {
    {l.id} + set j: nat | j < k :: ms[j].from
  }

  lemma OneMoreHeard(l: NodeState, ms: seq<Message>, k: nat)
    requires k < |ms|
    ensures Heard(l, ms, k + 1) == Heard(l, ms, k) + {ms[k].from}
  {
  }

  lemma {:induction false} GatheredTo(l: NodeState, context: nat, ms: seq<Message>, ls: seq<NodeState>, voters: set<Id>, k: nat)
    requires Leading(l, voters) && Gathers(l, context, ms, ls, voters) && k <= |ms|
    ensures Barrier(ls[k], voters, context, Heard(l, ms, k))
  {
    hide Barrier, StartReadIndex, Step, Fixed, Heard;
    if k == 0 {
      Opens(l, voters, context);
      assert Heard(l, ms, 0) == {l.id} by { NobodyHeard(l, ms); }
    } else {
      GatheredTo(l, context, ms, ls, voters, k - 1);
      assert Takes(ls[k - 1], ms[k - 1], ls[k - 1 + 1], voters, context);
      OneMoreHeard(l, ms, k - 1);
      AnswerCounts(ls[k - 1], ms[k - 1], voters, Heard(l, ms, k - 1));
    }
  }

  lemma NobodyHeard(l: NodeState, ms: seq<Message>)
    ensures Heard(l, ms, 0) == {l.id}
  {
  }

  /** The barrier can be read exactly when the leader and those that answered are a majority. */
  lemma ReadsExactly(l: NodeState, context: nat, ms: seq<Message>, ls: seq<NodeState>, voters: set<Id>, k: nat)
    requires Leading(l, voters) && Gathers(l, context, ms, ls, voters) && k <= |ms|
    ensures ReadIndex(ls[k], context).Some? <==> IsQuorum(voters, Heard(l, ms, k))
  {
    hide Gathers, Fixed, IsQuorum, Heard, Members;
    assert |ls| == |ms| + 1 by { Lengths(l, context, ms, ls, voters); }
    GatheredTo(l, context, ms, ls, voters, k);
  }

  lemma Lengths(l: NodeState, context: nat, ms: seq<Message>, ls: seq<NodeState>, voters: set<Id>)
    requires Gathers(l, context, ms, ls, voters)
    ensures |ls| == |ms| + 1
  {
  }
}
