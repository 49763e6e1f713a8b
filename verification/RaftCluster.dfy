/**
 * A cluster of nodes over one fixed voter set, and what holds in every run of it.
 *
 * A message may be delivered any number of times, in any order, or never, but only if some
 * node sent it.  Any write to a store may fail, with or without reaching the medium, and a
 * node may be restarted from its disk at any moment.
 */
module RaftCluster {
  import opened Quorums
  import opened Bits
  import opened RaftTypes
  import opened NodeModel
  import opened FixedVoters
  import P = RaftProtocol
  import R = RaftSteps
  import T = RaftRefinement
  import C = RaftCalls
  import S = StableStore

  datatype Cluster = Cluster(nodes: map<Id, NodeState>, network: set<Message>)

  datatype Call =
    | Tick
    | Deliver(m: Message)
    | Propose(command: nat)
    | Request(op: CommandOp, client: nat, request: nat, key: nat, value: nat)
    | StartRead(context: nat)
    | Transfer(target: Id)
    | Drain
    | Apply
    | Restart

  /** One call on one node, and how many of its writes succeed before one fails. */
  datatype Event = Event(id: Id, call: Call, budget: nat, kept: bool)

  predicate Enabled(c: Cluster, e: Event) {
    && e.id in c.nodes && Valid(c.nodes[e.id])
    && match e.call
       case Deliver(m) => m in c.network && m.to == e.id && NodeId(m.from)
       case Transfer(target) => NodeId(target)
       case Restart => Distinct(e.id, c.nodes[e.id].peers) && c.nodes[e.id].id == e.id
       case _ => true
  }

  function WithPlan(n: NodeState, e: Event): NodeState {
    n.(disk := n.disk.(budget := e.budget, kept := e.kept))
  }

  function Called(n: NodeState, call: Call): (r: NodeState)
    requires Valid(n)
    requires call.Deliver? ==> NodeId(call.m.from)
    requires call.Transfer? ==> NodeId(call.target)
    requires call.Restart? ==> Distinct(n.id, n.peers)
    ensures r.id == n.id
  {
    match call
    case Tick => NodeModel.Tick(n)
    case Deliver(m) => Step(n, m)
    case Propose(command) => NodeModel.Propose(n, command)
    case Request(op, client, request, key, value) => ProposeRequest(n, op, client, request, key, value)
    case StartRead(context) => StartReadIndex(n, context)
    case Transfer(target) => TransferLeadership(n, target)
    case Drain => NodeModel.Drain(n)
    case Apply => ApplyEntries(n)
    case Restart => RecoveredNode(n.id, n.peers, n.timeout, n.disk, n.disk.wal.hard, n.disk.wal.data)
  }

  function Next(c: Cluster, e: Event): Cluster
    requires Enabled(c, e)
  {
    var n := WithPlan(c.nodes[e.id], e);
    Cluster(c.nodes[e.id := Called(n, e.call)],
            if e.call.Drain? then c.network + (set m | m in n.outbound) else c.network)
  }

  /** Every node starts fresh, knowing all the others. */
  predicate Init(c: Cluster) {
    && c.network == {} && 0 !in c.nodes
    && (forall v :: v in c.nodes ==> NodeId(v))
    && (forall v :: v in c.nodes ==>
          var n := c.nodes[v];
          && PeeredAs(v, n.peers, c.nodes.Keys)
          && n == NewNode(v, n.peers, n.timeout, S.FRESH))
  }

  /** `states` is what `events` make of a fresh cluster. */
  ghost predicate Run(states: seq<Cluster>, events: seq<Event>) {
    && |states| == |events| + 1 && Init(states[0])
    && (forall i :: 0 <= i < |events| ==> Enabled(states[i], events[i]) && states[i + 1] == Next(states[i], events[i]))
  }

  // ----- The protocol behind a cluster -----

  ghost predicate Rel(p: P.Proto, c: Cluster) {
    && P.Inv(p) && p.voters == c.nodes.Keys
    && (forall v {:trigger c.nodes[v]} :: v in c.nodes ==> c.nodes[v].id == v && T.Tracks(p, c.nodes[v]))
    && (forall m :: m in c.network ==> T.Known(p.voters, p.packets, m))
  }

  function FreshProto(voters: set<Id>): P.Proto {
    P.Proto(voters, map v | v in voters :: P.Replica(0, 0, [ZERO_ENTRY], 0, Follower, {}, map[], 0, {}, false, 0),
            {}, map[], map[], map[], map[])
  }

  lemma InitRel(c: Cluster) returns (p: P.Proto)
    requires Init(c)
    ensures Rel(p, c) && p.barriers == map[]
  {
    p := FreshProto(c.nodes.Keys);
    ZeroMembers();
    forall v | v in c.nodes ensures c.nodes[v].id == v && T.Tracks(p, c.nodes[v]) {
      NewNodeFixed(v, c.nodes[v].peers, c.nodes[v].timeout, S.FRESH, c.nodes.Keys);
    }
    forall v | v in p.voters ensures P.GoodReplica(p, v, p.replicas[v]) { }
  }

  lemma PlanTracks(p: P.Proto, n: NodeState, e: Event)
    requires T.Tracks(p, n)
    ensures T.Tracks(p, WithPlan(n, e))
  {
  }

  lemma Adopts(n: NodeState, m: Message)
    requires Valid(n) && !AdoptTerm(n, m).faulted
    ensures m.kind == PreVote || m.kind == PreVoteResponse || m.term <= AdoptTerm(n, m).term
  {
  }

  lemma StepTracks(p: P.Proto, n: NodeState, m: Message) returns (q: P.Proto)
    requires P.Inv(p) && T.Tracks(p, n) && NodeId(m.from) && T.Known(p.voters, p.packets, m) && m.to == n.id
    ensures T.Moves(p, q, n.id) && T.Tracks(q, Step(n, m))
  {
    hide P.Inv, R.Evolves, T.Tracks, T.Known, Dispatch, AdoptTerm;
    T.Stays(p, n.id);
    q := p;
    if !n.faulted {
      T.Tracked(p, n);
      var n1 := AdoptTerm(n, m);
      q := C.AdoptTermTracks(p, n, m);
      if !n1.faulted {
        var p1 := q;
        Adopts(n, m);
        T.KnownAfter(p, p1, [m]);
        q := DispatchTracks(p1, n1, m);
        T.MovesFurther(p, p1, q, n.id);
      }
    }
  }

  lemma DispatchTracks(p: P.Proto, n: NodeState, m: Message) returns (q: P.Proto)
    requires P.Inv(p) && T.Tracks(p, n) && !n.faulted && NodeId(m.from) && T.Known(p.voters, p.packets, m) && m.to == n.id
    requires m.kind == PreVote || m.kind == PreVoteResponse || m.term <= n.term
    ensures T.Moves(p, q, n.id) && T.Tracks(q, Dispatch(n, m))
  {
    hide P.Inv, R.Evolves, T.Tracks, OnVote, OnPreVote, OnPreVoteResponse, OnVoteResponse, OnAppend, OnAppendResponse, StartElection;
    T.Stays(p, n.id);
    q := p;
    match m.kind {
      case PreVote => C.OnPreVoteTracks(p, n, m);
      case PreVoteResponse => q := C.OnPreVoteResponseTracks(p, n, m);
      case RequestVote => q := C.OnVoteTracks(p, n, m);
      case RequestVoteResponse => q := C.OnVoteResponseTracks(p, n, m);
      case Append => q := C.OnAppendTracks(p, n, m);
      case AppendResponse => q := C.OnAppendResponseTracks(p, n, m);
      case TimeoutNow =>
        if n.state == Follower && m.term == n.term && m.from == n.leader { q := C.StartElectionTracks(p, n); }
      case InstallSnapshot => assert false;
      case InstallSnapshotResponse => assert false;
    }
  }

  lemma CallTracks(p: P.Proto, n: NodeState, call: Call) returns (q: P.Proto)
    requires P.Inv(p) && T.Tracks(p, n) && Valid(n)
    requires call.Deliver? ==> NodeId(call.m.from) && T.Known(p.voters, p.packets, call.m) && call.m.to == n.id
    requires call.Transfer? ==> NodeId(call.target)
    requires call.Restart? ==> Distinct(n.id, n.peers)
    ensures T.Advances(p, q, n.id) && T.Tracks(q, Called(n, call))
    ensures if call.StartRead? && CanStartRead(n, call.context) then C.OpensOnly(p, q, n.term, call.context) else q.barriers == p.barriers
  {
    hide P.Inv, R.Evolves, T.Tracks, T.Known, C.OpensOnly, QuorumMask, NodeModel.Tick, Step, ProposeEntry, TransferLeadership, RecoveredNode, PeeredAs;
    T.Stays(p, n.id);
    q := p;
    match call {
      case Tick => q := C.TickTracks(p, n);
      case Deliver(m) => q := StepTracks(p, n, m);
      case Propose(command) =>
        if CanPropose(n) { q := C.ProposeTracks(p, n, ZERO_ENTRY.(term := n.term, command := command)); }
      case Request(op, client, request, key, value) =>
        if ProposeRequest(n, op, client, request, key, value) != n {
          q := C.ProposeTracks(p, n, ZERO_ENTRY.(term := n.term, operation := op, clientId := client, requestId := request, key := key, value := value));
        }
      case StartRead(context) =>
        if CanStartRead(n, context) { q := C.StartReadTracks(p, n, context); }
      case Transfer(target) => q := C.TransferTracks(p, n, target);
      case Drain => DrainTracks(p, n);
      case Apply => C.IdleTracks(p, n, ApplyEntries(n));
      case Restart => q := C.RestartTracks(p, n, n.disk);
    }
  }

  lemma DrainTracks(p: P.Proto, n: NodeState)
    requires T.Tracks(p, n)
    ensures T.Tracks(p, NodeModel.Drain(n))
  {
  }

  /** The event is a read barrier that the node accepts. */
  predicate Opens(c: Cluster, e: Event)
    requires Enabled(c, e)
  {
    e.call.StartRead? && CanStartRead(WithPlan(c.nodes[e.id], e), e.call.context)
  }

  lemma NextRel(p: P.Proto, c: Cluster, e: Event) returns (q: P.Proto)
    requires Rel(p, c) && Enabled(c, e)
    ensures Rel(q, Next(c, e)) && R.Evolves(p, q)
    ensures if Opens(c, e) then C.OpensOnly(p, q, c.nodes[e.id].term, e.call.context) else q.barriers == p.barriers
  {
    hide P.Inv, R.Evolves, T.Tracks, Called, T.Known, C.OpensOnly, CanStartRead;
    var n := WithPlan(c.nodes[e.id], e);
    PlanTracks(p, c.nodes[e.id], e);
    q := CallTracks(p, n, e.call);
    OthersTracked(p, q, c, n, Called(n, e.call), Next(c, e));
  }

  /** One node moved; the rest of the cluster is tracked as before. */
  lemma OthersTracked(p: P.Proto, q: P.Proto, c: Cluster, n: NodeState, n': NodeState, d: Cluster)
    requires Rel(p, c) && n.id in c.nodes && n'.id == n.id && d.nodes == c.nodes[n.id := n']
    requires T.Advances(p, q, n.id) && T.Tracks(p, n) && T.Tracks(q, n')
    requires forall m :: m in d.network ==> m in c.network || m in n.outbound
    ensures Rel(q, d) && R.Evolves(p, q)
  {
    hide P.Inv, R.Evolves, T.Tracks, T.Known;
    T.SameVoters(p, q);
    QueueKnown(p, n);
    forall v | v in d.nodes ensures d.nodes[v].id == v && T.Tracks(q, d.nodes[v]) {
      if v != n.id { TrackedAfter(p, q, c.nodes[v]); }
    }
    forall m | m in d.network ensures T.Known(q.voters, q.packets, m) {
      if m in c.network { T.KnownAfter(p, q, [m]); } else { T.KnownAfter(p, q, n.outbound); }
    }
  }

  lemma QueueKnown(p: P.Proto, n: NodeState)
    requires T.Tracks(p, n)
    ensures T.AllKnown(p.voters, p.packets, n.outbound)
  {
  }

  lemma TrackedAfter(p: P.Proto, q: P.Proto, n: NodeState)
    requires T.Tracks(p, n) && R.Evolves(p, q) && q.replicas[n.id] == p.replicas[n.id]
    ensures T.Tracks(q, n)
  {
    T.KnownAfter(p, q, n.outbound);
  }
}
