/** What it takes to decide: a proposal goes through exactly when a majority, counting the proposer,
    answers its two requests. */
module PaxosProgress {
  import opened Quorums
  import opened Bits
  import opened PaxosModel
  import V = PaxosValidity

  /** Enough nodes of a cluster of `size`. */
  predicate Enough(heard: set<Id>, size: nat) {
    |heard| >= size / 2 + 1
  }

  ghost predicate Marks(mask: nat, heard: set<Id>) {
    mask < Pow2(WIDTH) && Members(mask) == heard
  }

  lemma CountsMarks(mask: nat, heard: set<Id>)
    requires Marks(mask, heard)
    ensures Popcount(mask) == |heard|
  {
    hide Popcount, Pow2, Members;
    PopcountIsSize(mask);
  }

  lemma MarksMore(mask: nat, heard: set<Id>, id: Id)
    requires Marks(mask, heard) && NodeId(id)
    ensures Marks(Or(mask, NodeBit(id)), heard + {id})
  {
    hide Or, NodeBit, Pow2, Members;
    OrMembers(mask, NodeBit(id));
    BitMembers(id);
    OrBound(mask, NodeBit(id), WIDTH);
  }

  lemma MarksNobody()
    ensures Marks(0, {})
  {
    hide Pow2, Members;
    ZeroMembers();
  }

  // ----- Asking for promises -----

  /** Short of a majority of promises. */
  ghost predicate Asking(n: NodeState, num: nat, heard: set<Id>) {
    && 1 < n.size && Valid(n) && n.phase == Preparing && n.myNum == num == n.promised
    && Marks(n.promiseMask, heard) && !Enough(heard, n.size)
  }

  /** A majority has promised; the value is put to the vote, with the proposer's own vote. */
  ghost predicate Voting(n: NodeState, num: nat, votes: set<Id>) {
    && 1 < n.size && Valid(n) && n.phase == Accepting && n.myNum == num == n.promised
    && Marks(n.acceptMask, votes) && !Enough(votes, n.size)
  }

  predicate Stays(n: NodeState, r: NodeState) {
    r.id == n.id && r.size == n.size && r.peers == n.peers
  }

  /** A proposal of one node among several: a number above all it has promised, and a request to
      every peer. */
  lemma Proposes(n: NodeState, val: nat)
    requires Valid(n) && 1 < n.size
    ensures var r := Propose(n, val);
      && n.promised < r.myNum && Asking(r, r.myNum, {n.id}) && r.myVal == val && Stays(n, r)
      && (forall p :: p in n.peers ==> Message(Prepare, n.id, p, r.myNum, 0, false, 0, 0, false) in r.outbound)
  {
    hide SendAll, NextRound, NumberOf, Or, NodeBit, Popcount, Marks;
    V.NumberAbove(n);
    var n1 := Fresh(n, val);
    var n2 := OnPrepare(n1, n1.myNum);
    var n3 := RecordPromise(n2, n2.id, n1.acceptedNum, n1.acceptedVal, n1.hasAccepted);
    MarksNobody();
    MarksMore(0, {}, n.id);
    assert {} + {n.id} == {n.id};
    CountsMarks(Or(0, NodeBit(n.id)), {n.id});
    V.AskedAll(n3);
  }

  lemma Adopts(n: NodeState, num: nat)
    requires 1 < n.size && Valid(n) && n.phase == Preparing && n.myNum == num == n.promised
    ensures var r := Close(VoteOwn(Adopt(n))); Voting(r, num, {n.id}) && Stays(n, r)
    ensures var r := Close(VoteOwn(Adopt(n)));
      forall p :: p in n.peers ==> Message(Accept, n.id, p, num, r.myVal, false, 0, 0, false) in r.outbound
  {
    hide SendAll, Or, NodeBit, Popcount, Marks;
    MarksNobody();
    MarksMore(0, {}, n.id);
    assert {} + {n.id} == {n.id};
    CountsMarks(Or(0, NodeBit(n.id)), {n.id});
    var n2 := VoteOwn(Adopt(n));
    forall p | p in n.peers ensures Message(Accept, n.id, p, num, n2.myVal, false, 0, 0, false) in SendAll(n2, Accept, n2.myVal, 0).outbound {
      var j: nat :| j < |n.peers| && n.peers[j] == p;
      V.SentToAll(n2, Accept, n2.myVal, 0, j);
    }
  }

  /** A promise counts; the one that completes a majority starts the vote. */
  lemma HearsPromise(n: NodeState, num: nat, heard: set<Id>, m: Message)
    requires Asking(n, num, heard) && NodeId(m.from) && m.kind == Promise && m.num == num && m.ok
    ensures var r := Step(n, m);
      Stays(n, r) && if Enough(heard + {m.from}, n.size) then Voting(r, num, {n.id}) else Asking(r, num, heard + {m.from})
  {
    hide Close, VoteOwn, Adopt, Or, NodeBit, Popcount, Marks;
    var n1 := PaxosModel.Count(n, m.from, m.acceptedNum, m.acceptedVal, m.hasAccepted);
    MarksMore(n.promiseMask, heard, m.from);
    CountsMarks(n1.promiseMask, heard + {m.from});
    Adopts(n1, num);
  }

  lemma IgnoresPromise(n: NodeState, num: nat, votes: set<Id>, m: Message)
    requires Voting(n, num, votes) && NodeId(m.from) && m.kind == Promise
    ensures Step(n, m) == n
  {
  }

  // ----- Asking for votes -----

  lemma HearsVote(n: NodeState, num: nat, votes: set<Id>, m: Message)
    requires Voting(n, num, votes) && NodeId(m.from) && m.kind == Accepted && m.num == num && m.ok
    ensures var r := Step(n, m);
      Stays(n, r) && r.myNum == num && r.myVal == n.myVal && if Enough(votes + {m.from}, n.size) then r.phase == Decided else Voting(r, num, votes + {m.from})
  {
    hide Or, NodeBit, Popcount, Marks;
    MarksMore(n.acceptMask, votes, m.from);
    CountsMarks(Or(n.acceptMask, NodeBit(m.from)), votes + {m.from});
  }

  lemma StaysDecided(n: NodeState, m: Message)
    requires Valid(n) && n.phase == Decided && NodeId(m.from) && (m.kind == Accepted || m.kind == Promise)
    ensures Step(n, m) == n
  {
  }

  // ----- Answering -----

  function Answer(f: NodeState, m: Message): Message
    requires Valid(f) && NodeId(m.from)
  {
    var r := Step(f, m);
    if r.outbound == [] then m else r.outbound[|r.outbound| - 1]
  }

  /** An acceptor promises exactly what is above its last promise, and accepts exactly what is not
      below it. */
  lemma AnswersExactly(f: NodeState, m: Message)
    requires Valid(f) && NodeId(m.from)
    ensures m.kind == Prepare ==> var a := Answer(f, m);
      a.kind == Promise && a.from == f.id && a.to == m.from && a.num == m.num && (a.ok <==> f.promised < m.num)
    ensures m.kind == Accept ==> var a := Answer(f, m);
      a.kind == Accepted && a.from == f.id && a.to == m.from && a.num == m.num && (a.ok <==> f.promised <= m.num)
  {
  }

  // ----- A whole proposal -----

  predicate Takes(n: NodeState, f: NodeState, m: Message, n': NodeState) {
    Valid(n) && Valid(f) && NodeId(m.from) && NodeId(Answer(f, m).from) && n' == Step(n, Answer(f, m))
  }

  function Prepares(n: NodeState, p: Id): Message { Message(Prepare, n.id, p, n.myNum, 0, false, 0, 0, false) }

  function Puts(n: NodeState, p: Id): Message { Message(Accept, n.id, p, n.myNum, n.myVal, false, 0, 0, false) }

  /** The proposer gets the answers of `fs` to its first request. */
  ghost predicate Rallies(n: NodeState, fs: seq<NodeState>, ns: seq<NodeState>) {
    && |ns| == |fs| + 1 && ns[0] == n
    && forall j :: 0 <= j < |fs| ==> Takes(ns[j], fs[j], Prepares(n, fs[j].id), ns[j + 1])
  }

  /** Then it gets the answers of `fs` to its second request. */
  ghost predicate Polls(n: NodeState, fs: seq<NodeState>, ns: seq<NodeState>) {
    && |ns| == |fs| + 1 && ns[0] == n
    && forall j :: 0 <= j < |fs| ==> Takes(ns[j], fs[j], Puts(n, fs[j].id), ns[j + 1])
  }

  ghost function Names(n: NodeState, fs: seq<NodeState>, j: nat): set<Id>
    requires j <= |fs|
  {
    {n.id} + set i: nat | i < j :: fs[i].id
  }

  lemma NamesMore(n: NodeState, fs: seq<NodeState>, j: nat)
    requires j <= |fs|
    ensures Names(n, fs, 0) == {n.id}
    ensures j < |fs| ==> Names(n, fs, j + 1) == Names(n, fs, j) + {fs[j].id} && |Names(n, fs, j)| <= |Names(n, fs, j + 1)|
  {
    if j < |fs| { SubsetSize(Names(n, fs, j), Names(n, fs, j + 1)); }
  }

  lemma {:induction false} RalliedTo(n: NodeState, fs: seq<NodeState>, ns: seq<NodeState>, j: nat)
    requires Asking(n, n.myNum, {n.id}) && Rallies(n, fs, ns) && j <= |fs| && forall i :: 0 <= i < |fs| ==> fs[i].promised < n.myNum
    ensures Stays(n, ns[j]) && if Enough(Names(n, fs, j), n.size) then Voting(ns[j], n.myNum, {n.id}) else Asking(ns[j], n.myNum, Names(n, fs, j))
    decreases j
  {
    hide Step, Names, Asking, Voting, Answer;
    if j == 0 {
      NamesMore(n, fs, 0);
      StillShort(n);
    } else {
      var k := j - 1;
      RalliedTo(n, fs, ns, k);
      NamesMore(n, fs, k);
      var m := Prepares(n, fs[k].id);
      assert Takes(ns[k], fs[k], m, ns[k + 1]);
      AnswersExactly(fs[k], m);
      if Enough(Names(n, fs, k), n.size) {
        IgnoresPromise(ns[k], n.myNum, {n.id}, Answer(fs[k], m));
      } else {
        HearsPromise(ns[k], n.myNum, Names(n, fs, k), Answer(fs[k], m));
      }
    }
  }

  lemma StillShort(n: NodeState)
    requires Asking(n, n.myNum, {n.id}) || Voting(n, n.myNum, {n.id})
    ensures !Enough({n.id}, n.size)
  {
  }

  lemma {:induction false} PolledTo(n: NodeState, fs: seq<NodeState>, ns: seq<NodeState>, j: nat)
    requires Voting(n, n.myNum, {n.id}) && Polls(n, fs, ns) && j <= |fs| && forall i :: 0 <= i < |fs| ==> fs[i].promised <= n.myNum
    ensures Stays(n, ns[j]) && ns[j].myNum == n.myNum && ns[j].myVal == n.myVal
    ensures if Enough(Names(n, fs, j), n.size) then ns[j].phase == Decided else Voting(ns[j], n.myNum, Names(n, fs, j))
    decreases j
  {
    hide Step, Names, Voting, Answer;
    if j == 0 {
      NamesMore(n, fs, 0);
      StillShort(n);
    } else {
      var k := j - 1;
      PolledTo(n, fs, ns, k);
      NamesMore(n, fs, k);
      var m := Puts(n, fs[k].id);
      assert Takes(ns[k], fs[k], m, ns[k + 1]);
      AnswersExactly(fs[k], m);
      if Enough(Names(n, fs, k), n.size) {
        StaysDecided(ns[k], Answer(fs[k], m));
      } else {
        HearsVote(ns[k], n.myNum, Names(n, fs, k), Answer(fs[k], m));
      }
    }
  }

  /** A proposal whose requests reach acceptors that have promised no higher number is decided
      exactly when those that answer are, with the proposer, a majority: of both requests. */
  lemma DecidesExactly(n: NodeState, val: nat, fs: seq<NodeState>, ns: seq<NodeState>, gs: seq<NodeState>, os: seq<NodeState>)
    requires Valid(n) && 1 < n.size && Rallies(Propose(n, val), fs, ns)
    requires forall i :: 0 <= i < |fs| ==> fs[i].promised < Propose(n, val).myNum
    requires ns[|fs|].phase == Accepting ==> Polls(ns[|fs|], gs, os) && forall i :: 0 <= i < |gs| ==> gs[i].promised <= ns[|fs|].myNum
    ensures ns[|fs|].phase == Accepting <==> Enough(Names(n, fs, |fs|), n.size)
    ensures ns[|fs|].phase == Accepting ==> |os| == |gs| + 1 && (os[|gs|].phase == Decided <==> Enough(Names(n, gs, |gs|), n.size))
  {
    hide Propose, Takes, Names, Marks, Puts, Prepares;
    Proposes(n, val);
    var p := Propose(n, val);
    RalliedTo(p, fs, ns, |fs|);
    SameNames(n, p, fs);
    if ns[|fs|].phase == Accepting {
      PolledTo(ns[|fs|], gs, os, |gs|);
      SameNames(n, ns[|fs|], gs);
    }
  }

  lemma SameNames(n: NodeState, p: NodeState, fs: seq<NodeState>)
    requires p.id == n.id
    ensures Names(p, fs, |fs|) == Names(n, fs, |fs|)
  {
  }
}
