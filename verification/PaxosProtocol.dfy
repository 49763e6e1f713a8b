/**
 * Single-decree Paxos seen through its acceptors: what each has promised and voted for, and
 * which value was put to the vote under each number.
 */
module PaxosProtocol {
  import opened Quorums

  datatype Acceptor = Acceptor(promised: nat, votes: map<nat, nat>)

  /** `proposals` records the value of every number under which one was ever put to the vote. */
  datatype State = State(acceptors: map<Id, Acceptor>, proposals: map<nat, nat>)

  /** Acceptors that have voted under number `b`, or still could. */
  function Potential(s: State, b: nat): set<Id> {
    set a | a in s.acceptors && (s.acceptors[a].promised <= b || b in s.acceptors[a].votes)
  }

  predicate Choosable(s: State, b: nat) {
    IsQuorum(s.acceptors.Keys, Potential(s, b))
  }

  /** No number below `b` can still decide anything but `v`. */
  ghost predicate Safe(s: State, b: nat, v: nat) {
    forall b' {:trigger Choosable(s, b')} :: 0 <= b' < b && Choosable(s, b') ==> b' in s.proposals && s.proposals[b'] == v
  }

  ghost predicate GoodAcceptor(s: State, a: Acceptor) {
    forall b :: b in a.votes ==> b <= a.promised && b in s.proposals && s.proposals[b] == a.votes[b]
  }

  ghost predicate Inv(s: State) {
    && (forall a {:trigger GoodAcceptor(s, s.acceptors[a])} :: a in s.acceptors ==> GoodAcceptor(s, s.acceptors[a]))
    && (forall b {:trigger Safe(s, b, s.proposals[b])} :: b in s.proposals ==> Safe(s, b, s.proposals[b]))
  }

  /** Voters for `v` under number `b`. */
  function VotersOf(s: State, b: nat, v: nat): set<Id> {
    set a | a in s.acceptors && b in s.acceptors[a].votes && s.acceptors[a].votes[b] == v
  }

  predicate Chosen(s: State, b: nat, v: nat) {
    IsQuorum(s.acceptors.Keys, VotersOf(s, b, v))
  }

  /** `a` will never vote below `b` again, and its highest vote below `b` is at most `best`. */
  predicate Pledged(s: State, a: Id, b: nat, hasBest: bool, best: nat) {
    && a in s.acceptors && b <= s.acceptors[a].promised
    && (forall b' :: b' in s.acceptors[a].votes && b' < b ==> hasBest && b' <= best)
  }

  // ----- Progress -----

  ghost predicate Evolves(s: State, t: State) {
    && s.acceptors.Keys == t.acceptors.Keys
    && (forall a :: a in s.acceptors ==> Moves(s.acceptors[a], t.acceptors[a]))
    && (forall b :: b in s.proposals ==> b in t.proposals && t.proposals[b] == s.proposals[b])
  }

  ghost predicate Moves(a: Acceptor, a': Acceptor) {
    && a.promised <= a'.promised
    && (forall b :: b in a.votes ==> b in a'.votes && a'.votes[b] == a.votes[b])
    && (forall b :: b in a'.votes && b !in a.votes ==> a.promised <= b)
  }

  lemma EvolvesFurther(s: State, t: State, u: State)
    requires Evolves(s, t) && Evolves(t, u)
    ensures Evolves(s, u)
  {
    forall a | a in s.acceptors ensures Moves(s.acceptors[a], u.acceptors[a]) {
      assert Moves(s.acceptors[a], t.acceptors[a]) && Moves(t.acceptors[a], u.acceptors[a]);
    }
  }

  lemma ChoosableBefore(s: State, t: State, b: nat)
    requires Evolves(s, t) && Choosable(t, b)
    ensures Choosable(s, b)
  {
    forall a | a in Potential(t, b) ensures a in Potential(s, b) { assert Moves(s.acceptors[a], t.acceptors[a]); }
    QuorumGrows(s.acceptors.Keys, Potential(t, b), Potential(s, b));
  }

  lemma SafeAfter(s: State, t: State, b: nat, v: nat)
    requires Evolves(s, t) && Safe(s, b, v)
    ensures Safe(t, b, v)
  {
    forall b' | 0 <= b' < b && Choosable(t, b') ensures b' in t.proposals && t.proposals[b'] == v {
      ChoosableBefore(s, t, b');
    }
  }

  lemma PledgedAfter(s: State, t: State, a: Id, b: nat, hasBest: bool, best: nat)
    requires Evolves(s, t) && Pledged(s, a, b, hasBest, best)
    ensures Pledged(t, a, b, hasBest, best)
  {
    assert Moves(s.acceptors[a], t.acceptors[a]);
  }

  // ----- Steps -----

  function Promise(s: State, a: Id, b: nat): State
    requires a in s.acceptors
  {
    s.(acceptors := s.acceptors[a := s.acceptors[a].(promised := b)])
  }

  function Vote(s: State, a: Id, b: nat): State
    requires a in s.acceptors && b in s.proposals
  {
    var x := s.acceptors[a];
    s.(acceptors := s.acceptors[a := Acceptor(b, x.votes[b := s.proposals[b]])])
  }

  function Propose(s: State, b: nat, v: nat): State {
    s.(proposals := s.proposals[b := v])
  }

  /** The invariant holds after a step that keeps every acceptor in order. */
  lemma StepKeeps(s: State, t: State)
    requires Inv(s) && Evolves(s, t)
    requires forall a :: a in t.acceptors ==> GoodAcceptor(t, t.acceptors[a])
    requires forall b :: b in t.proposals && b !in s.proposals ==> Safe(t, b, t.proposals[b])
    ensures Inv(t)
  {
    forall b | b in t.proposals ensures Safe(t, b, t.proposals[b]) {
      if b in s.proposals { assert Safe(s, b, s.proposals[b]); SafeAfter(s, t, b, s.proposals[b]); }
    }
  }

  lemma PromiseKeeps(s: State, a: Id, b: nat)
    requires Inv(s) && a in s.acceptors && s.acceptors[a].promised <= b
    ensures Inv(Promise(s, a, b)) && Evolves(s, Promise(s, a, b))
  {
    var t := Promise(s, a, b);
    forall x | x in t.acceptors ensures GoodAcceptor(t, t.acceptors[x]) { assert GoodAcceptor(s, s.acceptors[x]); }
    StepKeeps(s, t);
  }

  lemma VoteKeeps(s: State, a: Id, b: nat)
    requires Inv(s) && a in s.acceptors && b in s.proposals && s.acceptors[a].promised <= b
    ensures Inv(Vote(s, a, b)) && Evolves(s, Vote(s, a, b))
  {
    var t := Vote(s, a, b);
    assert GoodAcceptor(s, s.acceptors[a]);
    forall x | x in t.acceptors ensures GoodAcceptor(t, t.acceptors[x]) { assert GoodAcceptor(s, s.acceptors[x]); }
    StepKeeps(s, t);
  }

  lemma ProposeKeeps(s: State, b: nat, v: nat)
    requires Inv(s) && b !in s.proposals && Safe(s, b, v)
    ensures Inv(Propose(s, b, v)) && Evolves(s, Propose(s, b, v))
  {
    var t := Propose(s, b, v);
    forall x | x in t.acceptors ensures GoodAcceptor(t, t.acceptors[x]) { assert GoodAcceptor(s, s.acceptors[x]); }
    SafeAfter(s, t, b, v);
    StepKeeps(s, t);
  }

  /**
   * The step that makes Paxos safe: once a majority is pledged to `b`, the value of its highest
   * vote below `b` is the only one that can still be decided below `b`; without such a vote
   * nothing can.
   */
  lemma MajorityPledged(s: State, q: set<Id>, b: nat, hasBest: bool, best: nat, v: nat)
    requires Inv(s) && IsQuorum(s.acceptors.Keys, q)
    requires forall a :: a in q ==> Pledged(s, a, b, hasBest, best)
    requires hasBest ==> best < b && best in s.proposals && s.proposals[best] == v
    ensures Safe(s, b, v)
  {
    forall b' | 0 <= b' < b && Choosable(s, b') ensures b' in s.proposals && s.proposals[b'] == v {
      var a := QuorumsMeet(s.acceptors.Keys, Potential(s, b'), q);
      assert Pledged(s, a, b, hasBest, best);
      assert b' in s.acceptors[a].votes && hasBest && b' <= best;
      assert Safe(s, best, s.proposals[best]);
    }
  }

  /** Only one value is ever chosen. */
  lemma Agreement(s: State, b: nat, v: nat, b': nat, v': nat)
    requires Inv(s) && Chosen(s, b, v) && Chosen(s, b', v') && b <= b'
    ensures v == v'
  {
    var a := QuorumsMeet(s.acceptors.Keys, VotersOf(s, b, v), VotersOf(s, b, v));
    var a' := QuorumsMeet(s.acceptors.Keys, VotersOf(s, b', v'), VotersOf(s, b', v'));
    assert GoodAcceptor(s, s.acceptors[a]) && GoodAcceptor(s, s.acceptors[a']);
    if b < b' {
      QuorumGrows(s.acceptors.Keys, VotersOf(s, b, v), Potential(s, b));
      assert Safe(s, b', s.proposals[b']) && Choosable(s, b);
    }
  }

  lemma ChosenAfter(s: State, t: State, b: nat, v: nat)
    requires Evolves(s, t) && Chosen(s, b, v)
    ensures Chosen(t, b, v)
  {
    forall a | a in VotersOf(s, b, v) ensures a in VotersOf(t, b, v) { assert Moves(s.acceptors[a], t.acceptors[a]); }
    QuorumGrows(s.acceptors.Keys, VotersOf(s, b, v), VotersOf(t, b, v));
  }
}
