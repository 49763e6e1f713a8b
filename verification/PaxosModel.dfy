/** What each call does to a Paxos node, as a function from its state before to its state after. */
module PaxosModel {
  import opened Quorums
  import opened Bits

  datatype Kind = Prepare | Promise | Accept | Accepted

  datatype Message = Message(kind: Kind, from: Id, to: Id, num: nat, val: nat, ok: bool,
                             acceptedNum: nat, acceptedVal: nat, hasAccepted: bool)

  datatype Phase = Idle | Preparing | Accepting | Decided

  datatype Acceptance = Acceptance(num: nat, val: nat)

  datatype NodeState = NodeState(
    id: Id, size: nat, peers: seq<Id>,
    promised: nat, acceptedNum: nat, acceptedVal: nat, hasAccepted: bool, accepts: seq<Acceptance>,
    phase: Phase, round: nat, myNum: nat, myVal: nat, promiseMask: nat, acceptMask: nat,
    bestNum: nat, bestVal: nat, hasBest: bool, elapsed: nat, timeout: nat, adopted: nat,
    outbound: seq<Message>)

  predicate Valid(n: NodeState) {
    1 <= n.id <= n.size <= WIDTH
  }

  /** The identifiers from `i` to `size` other than `id`. */
  function PeersFrom(id: Id, size: nat, i: nat): seq<Id>
    decreases size + 1 - i
  {
    if i > size then [] else (if i == id then [] else [i]) + PeersFrom(id, size, i + 1)
  }

  function NewNode(id: Id, size: nat, timeout: nat): NodeState {
    NodeState(id, size, PeersFrom(id, size, 1), 0, 0, 0, false, [], Idle, 0, 0, 0, 0, 0, 0, 0, false, 0, timeout, 0, [])
  }

  function Quorum(n: NodeState): nat { n.size / 2 + 1 }

  function SendAll(n: NodeState, kind: Kind, val: nat, k: nat): (r: NodeState)
    requires k <= |n.peers|
    ensures r == n.(outbound := r.outbound)
    decreases |n.peers| - k
  {
    if k == |n.peers| then n
    else SendAll(n.(outbound := n.outbound + [Message(kind, n.id, n.peers[k], n.myNum, val, false, 0, 0, false)]), kind, val, k + 1)
  }

  // ----- Acceptor -----

  function OnPrepare(n: NodeState, num: nat): NodeState {
    if num <= n.promised then n else n.(promised := num)
  }

  function OnAccept(n: NodeState, num: nat, val: nat): NodeState {
    if num < n.promised then n
    else n.(promised := num, acceptedNum := num, acceptedVal := val, hasAccepted := true,
            accepts := n.accepts + [Acceptance(num, val)])
  }

  // ----- Proposer -----

  /** Counts one promise and remembers the highest-numbered acceptance reported so far. */
  function Count(n: NodeState, from: Id, num: nat, val: nat, has: bool): NodeState
    requires NodeId(from)
  {
    var n1 := n.(promiseMask := Or(n.promiseMask, NodeBit(from)));
    if has && (!n.hasBest || num > n.bestNum) then n1.(bestNum := num, bestVal := val, hasBest := true) else n1
  }

  /** A majority has promised: adopt what they report, if anything, and put it to the vote. */
  function Adopt(n: NodeState): NodeState {
    var val := if n.hasBest then n.bestVal else n.myVal;
    n.(adopted := if val != n.myVal then n.adopted + 1 else n.adopted, myVal := val, phase := Accepting, acceptMask := 0)
  }

  /** The proposer's own vote. */
  function VoteOwn(n: NodeState): (r: NodeState)
    requires NodeId(n.id)
    ensures r.id == n.id && r.size == n.size && r.peers == n.peers
  {
    OnAccept(n, n.myNum, n.myVal).(acceptMask := if n.promised <= n.myNum then Or(n.acceptMask, NodeBit(n.id)) else n.acceptMask)
  }

  function Close(n: NodeState): (r: NodeState)
    ensures r.id == n.id && r.size == n.size && r.peers == n.peers
  {
    if Popcount(n.acceptMask) >= Quorum(n) then n.(phase := Decided) else SendAll(n, Accept, n.myVal, 0)
  }

  function RecordPromise(n: NodeState, from: Id, num: nat, val: nat, has: bool): (r: NodeState)
    requires NodeId(n.id) && NodeId(from)
    ensures r.id == n.id && r.size == n.size && r.peers == n.peers
  {
    var n1 := Count(n, from, num, val, has);
    if Popcount(n1.promiseMask) < Quorum(n1) then n1 else Close(VoteOwn(Adopt(n1)))
  }

  function Max(a: nat, b: nat): nat { if a < b then b else a }

  function NextRound(n: NodeState): nat
    requires 0 < n.size
  {
    Max(n.round + 1, n.promised / n.size + 1)
  }

  /** Nodes have distinct identifiers in `1..size`, so no two of them share a number. */
  function NumberOf(round: nat, size: nat, id: Id): nat { round * size + id }

  function Fresh(n: NodeState, val: nat): NodeState
    requires 0 < n.size
  {
    n.(round := NextRound(n), myNum := NumberOf(NextRound(n), n.size, n.id), myVal := val, phase := Preparing, elapsed := 0,
       promiseMask := 0, acceptMask := 0, hasBest := false)
  }

  function Propose(n: NodeState, val: nat): (r: NodeState)
    requires Valid(n)
    ensures r.id == n.id && r.size == n.size && r.peers == n.peers
  {
    var n1 := Fresh(n, val);
    var n2 := OnPrepare(n1, n1.myNum);
    SendAll(if n1.myNum > n1.promised then RecordPromise(n2, n2.id, n1.acceptedNum, n1.acceptedVal, n1.hasAccepted) else n2, Prepare, 0, 0)
  }

  function Tick(n: NodeState): (r: NodeState)
    requires Valid(n)
    ensures r.id == n.id && r.size == n.size && r.peers == n.peers
  {
    if n.phase != Preparing && n.phase != Accepting then n
    else
      var n1 := n.(elapsed := n.elapsed + 1);
      if n1.elapsed >= n1.timeout then Propose(n1, n1.myVal) else n1
  }

  function Reply(n: NodeState, m: Message): Message {
    var ok := m.num > n.promised;
    Message(Promise, n.id, m.from, m.num, 0, ok, if ok then n.acceptedNum else 0, if ok then n.acceptedVal else 0, ok && n.hasAccepted)
  }

  function OnAccepted(n: NodeState, m: Message): NodeState
    requires NodeId(m.from)
  {
    var n1 := n.(acceptMask := Or(n.acceptMask, NodeBit(m.from)));
    if Popcount(n1.acceptMask) >= Quorum(n1) then n1.(phase := Decided) else n1
  }

  function Step(n: NodeState, m: Message): (r: NodeState)
    requires Valid(n) && NodeId(m.from)
    ensures r.id == n.id && r.size == n.size && r.peers == n.peers
  {
    match m.kind
    case Prepare => OnPrepare(n, m.num).(outbound := n.outbound + [Reply(n, m)])
    case Promise =>
      if m.num != n.myNum || n.phase != Preparing || !m.ok then n
      else RecordPromise(n, m.from, m.acceptedNum, m.acceptedVal, m.hasAccepted)
    case Accept =>
      OnAccept(n, m.num, m.val).(outbound := n.outbound + [Message(Accepted, n.id, m.from, m.num, 0, n.promised <= m.num, 0, 0, false)])
    case Accepted =>
      if m.num != n.myNum || n.phase != Accepting || !m.ok then n else OnAccepted(n, m)
  }
}
