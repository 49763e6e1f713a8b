/** The Paxos node as the program updates it, in place, proved against the model of each call. */
module PaxosNode {
  import opened Quorums
  import opened Bits
  import M = PaxosModel

  class Node {
    const id: Id
    const size: nat
    const peers: seq<Id>
    var promised: nat
    var acceptedNum: nat
    var acceptedVal: nat
    var hasAccepted: bool
    var accepts: seq<M.Acceptance>
    var phase: M.Phase
    var round: nat
    var myNum: nat
    var myVal: nat
    var promiseMask: nat
    var acceptMask: nat
    var bestNum: nat
    var bestVal: nat
    var hasBest: bool
    var elapsed: nat
    const timeout: nat
    var adopted: nat
    var outbound: seq<M.Message>

    ghost function View(): M.NodeState
      reads this
    {
      M.NodeState(id, size, peers, promised, acceptedNum, acceptedVal, hasAccepted, accepts, phase, round, myNum, myVal,
                  promiseMask, acceptMask, bestNum, bestVal, hasBest, elapsed, timeout, adopted, outbound)
    }

    ghost predicate Valid()
      reads this
    {
      M.Valid(View())
    }

    constructor (id: Id, size: nat, timeout: nat)
      ensures View() == M.NewNode(id, size, timeout)
    {
      var others: seq<Id> := [];
      var i := 1;
      while i <= size
        invariant 1 <= i <= size + 1
        invariant others + M.PeersFrom(id, size, i) == M.PeersFrom(id, size, 1)
      {
        if i != id { others := others + [i]; }
        i := i + 1;
      }
      this.id, this.size, this.peers, this.timeout := id, size, others, timeout;
      promised, acceptedNum, acceptedVal, hasAccepted, accepts := 0, 0, 0, false, [];
      phase, round, myNum, myVal, promiseMask, acceptMask := M.Idle, 0, 0, 0, 0, 0;
      bestNum, bestVal, hasBest, elapsed, adopted, outbound := 0, 0, false, 0, 0, [];
    }

    function Quorum(): nat { size / 2 + 1 }

    /** Queues one message of this kind to every peer. */
    method SendAll(kind: M.Kind, val: nat)
      modifies this`outbound
      ensures View() == M.SendAll(old(View()), kind, val, 0)
    {
      var k := 0;
      while k < |peers|
        invariant k <= |peers|
        invariant M.SendAll(View(), kind, val, k) == M.SendAll(old(View()), kind, val, 0)
      {
        outbound := outbound + [M.Message(kind, id, peers[k], myNum, val, false, 0, 0, false)];
        k := k + 1;
      }
    }

    /** A round above every one this node has used and every number it has promised. */
    function NextRound(): (r: nat)
      requires 0 < size
      reads this
      ensures r == M.NextRound(View())
    {
      M.Max(round + 1, promised / size + 1)
    }

    method BeginRound(val: nat)
      requires 0 < size
      modifies this
      ensures View() == M.Fresh(old(View()), val)
    {
      hide M.NumberOf, M.NextRound, NextRound;
      var next := NextRound();
      var num := M.NumberOf(next, size, id);
      round, myNum := next, num;
      myVal, phase, elapsed := val, M.Preparing, 0;
      promiseMask, acceptMask, hasBest := 0, 0, false;
    }

    /** Starts a new round for `val`; a round already under way is superseded. */
    method Propose(val: nat)
      requires Valid()
      modifies this
      ensures Valid() && View() == M.Propose(old(View()), val)
    {
      hide M.RecordPromise, M.SendAll, M.Fresh;
      BeginRound(val);
      ghost var begun := View();
      assert begun.id == id && begun.size == size;
      var ok, accNum, accVal, hasAcc := OnPrepare(myNum);
      if ok { RecordPromise(id, accNum, accVal, hasAcc); }
      SendAll(M.Prepare, 0);
    }

    method Tick()
      requires Valid()
      modifies this
      ensures Valid() && View() == M.Tick(old(View()))
    {
      if phase != M.Preparing && phase != M.Accepting { return; }
      elapsed := elapsed + 1;
      if elapsed >= timeout { Propose(myVal); }
    }

    method Step(m: M.Message)
      requires Valid() && NodeId(m.from)
      modifies this
      ensures Valid() && View() == M.Step(old(View()), m)
    {
      match m.kind {
        case Prepare =>
          var ok, accNum, accVal, hasAcc := OnPrepare(m.num);
          outbound := outbound + [M.Message(M.Promise, id, m.from, m.num, 0, ok, accNum, accVal, hasAcc)];
        case Promise =>
          if m.num != myNum || phase != M.Preparing || !m.ok { return; }
          RecordPromise(m.from, m.acceptedNum, m.acceptedVal, m.hasAccepted);
        case Accept =>
          var ok := OnAccept(m.num, m.val);
          outbound := outbound + [M.Message(M.Accepted, id, m.from, m.num, 0, ok, 0, 0, false)];
        case Accepted =>
          if m.num != myNum || phase != M.Accepting || !m.ok { return; }
          acceptMask := Or(acceptMask, NodeBit(m.from));
          var count := BitsSet(acceptMask);
          if count >= Quorum() { phase := M.Decided; }
      }
    }

    method Drain() returns (sent: seq<M.Message>)
      modifies this`outbound
      ensures sent == old(outbound) && outbound == []
    {
      sent := outbound;
      outbound := [];
    }

    /** Promises only on a strictly higher number, and reports what was accepted before. */
    method OnPrepare(num: nat) returns (ok: bool, accNum: nat, accVal: nat, hasAcc: bool)
      modifies this`promised
      ensures View() == M.OnPrepare(old(View()), num) && ok == (num > old(promised))
      ensures if ok then accNum == acceptedNum && accVal == acceptedVal && hasAcc == hasAccepted
        else accNum == 0 && accVal == 0 && !hasAcc
    {
      if num <= promised { return false, 0, 0, false; }
      promised := num;
      return true, acceptedNum, acceptedVal, hasAccepted;
    }

    /** Refuses a number it has promised past. */
    method OnAccept(num: nat, val: nat) returns (ok: bool)
      modifies this`promised, this`acceptedNum, this`acceptedVal, this`hasAccepted, this`accepts
      ensures View() == M.OnAccept(old(View()), num, val) && ok == (old(promised) <= num)
    {
      if num < promised { return false; }
      promised := num;
      acceptedNum, acceptedVal, hasAccepted := num, val, true;
      accepts := accepts + [M.Acceptance(num, val)];
      return true;
    }

    method CountPromise(from: Id, accNum: nat, accVal: nat, hasAcc: bool)
      requires NodeId(from)
      modifies this`promiseMask, this`bestNum, this`bestVal, this`hasBest
      ensures View() == M.Count(old(View()), from, accNum, accVal, hasAcc)
    {
      promiseMask := Or(promiseMask, NodeBit(from));
      if hasAcc && (!hasBest || accNum > bestNum) { bestNum, bestVal, hasBest := accNum, accVal, true; }
    }

    method AdoptBest()
      modifies this`adopted, this`myVal, this`phase, this`acceptMask
      ensures View() == M.Adopt(old(View()))
    {
      if hasBest {
        if bestVal != myVal { adopted := adopted + 1; }
        myVal := bestVal;
      }
      phase, acceptMask := M.Accepting, 0;
    }

    method VoteOwn()
      requires NodeId(id)
      modifies this`promised, this`acceptedNum, this`acceptedVal, this`hasAccepted, this`accepts, this`acceptMask
      ensures View() == M.VoteOwn(old(View()))
    {
      hide Or, NodeBit;
      var ok := OnAccept(myNum, myVal);
      if ok { acceptMask := Or(acceptMask, NodeBit(id)); }
    }

    /** Collects one promise; with a majority of them, puts a value to the vote. */
    method RecordPromise(from: Id, accNum: nat, accVal: nat, hasAcc: bool)
      requires NodeId(id) && NodeId(from)
      modifies this
      ensures View() == M.RecordPromise(old(View()), from, accNum, accVal, hasAcc)
    {
      hide Or, NodeBit, Popcount, M.SendAll, M.VoteOwn, M.Adopt, M.Count;
      CountPromise(from, accNum, accVal, hasAcc);
      var promises := BitsSet(promiseMask);
      if promises < Quorum() { return; }
      AdoptBest();
      VoteOwn();
      var votes := BitsSet(acceptMask);
      if votes >= Quorum() {
        phase := M.Decided;
        return;
      }
      SendAll(M.Accept, myVal);
    }
  }
}
