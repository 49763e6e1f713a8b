/**
 * What every run of a cluster keeps: the guarantees of the Raft paper, stated on the nodes.
 *
 * A run may lose, duplicate and reorder messages, crash any node between or inside calls by
 * failing any of its writes, and restart it from whatever its disk then holds.
 */
module RaftSafety {
  import opened Quorums
  import opened Bits
  import opened RaftTypes
  import opened NodeModel
  import opened RaftCluster
  import FixedVoters
  import P = RaftProtocol
  import R = RaftSteps
  import T = RaftRefinement
  import C = RaftCalls

  // ----- The protocol behind a run -----

  /** `ps` are protocol states behind the clusters of a run, each evolved from those before. */
  ghost predicate Behind(ps: seq<P.Proto>, states: seq<Cluster>) {
    && |ps| == |states|
    && (forall i :: 0 <= i < |ps| ==> Rel(ps[i], states[i]))
    && (forall i, j :: 0 <= i <= j < |ps| ==> R.Evolves(ps[i], ps[j]))
  }

  /** What one event does to the read barriers. */
  ghost predicate Barred(p: P.Proto, q: P.Proto, c: Cluster, e: Event)
    requires Enabled(c, e)
  {
    if Opens(c, e) then C.OpensOnly(p, q, c.nodes[e.id].term, e.call.context) else q.barriers == p.barriers
  }

  /** The barriers of `ps` are those that the events opened. */
  ghost predicate Opening(ps: seq<P.Proto>, states: seq<Cluster>, events: seq<Event>) {
    && |ps| == |states| == |events| + 1 && ps[0].barriers == map[]
    && (forall i :: 0 <= i < |events| ==> Enabled(states[i], events[i]) && Barred(ps[i], ps[i + 1], states[i], events[i]))
  }

  lemma EvolvesSelf(p: P.Proto)
    ensures R.Evolves(p, p)
  {
  }

  /** Every run is a run of the protocol. */
  lemma {:induction false} ProtocolBehind(states: seq<Cluster>, events: seq<Event>) returns (ps: seq<P.Proto>)
    requires Run(states, events)
    ensures Behind(ps, states) && Opening(ps, states, events)
    decreases |events|
  {
    hide Rel, R.Evolves, Init, Enabled, Next, Opens, C.OpensOnly;
    if |events| == 0 {
      var p := InitRel(states[0]);
      EvolvesSelf(p);
      ps := [p];
    } else {
      var k := |events| - 1;
      var before := ProtocolBehind(states[..k + 1], events[..k]);
      var p := before[k];
      var q := NextRel(p, states[k], events[k]);
      EvolvesSelf(q);
      forall i | 0 <= i <= k ensures R.Evolves(before[i], q) { T.EvolvesFurther(before[i], p, q); }
      ps := before + [q];
    }
  }

  /** The events a run can take: any call on any node, and the delivery of any message drained
      so far.  Transfer targets must be node numbers, as the source demands. */
  lemma AnyCallIsEnabled(states: seq<Cluster>, events: seq<Event>, i: nat, e: Event)
    requires Run(states, events) && i < |states|
    ensures Enabled(states[i], e) <==>
      && e.id in states[i].nodes
      && (e.call.Deliver? ==> e.call.m in states[i].network && e.call.m.to == e.id)
      && (e.call.Transfer? ==> NodeId(e.call.target))
  {
    hide Rel, R.Evolves, Init, Next;
    var ps := ProtocolBehind(states, events);
    assert Rel(ps[i], states[i]);
    if e.id in states[i].nodes { NodeStands(ps[i], states[i], e.id); }
    if e.call.Deliver? && e.call.m in states[i].network { SenderStands(ps[i], states[i], e.call.m); }
  }

  lemma NodeStands(p: P.Proto, c: Cluster, v: Id)
    requires Rel(p, c) && v in c.nodes
    ensures c.nodes[v].id == v && Valid(c.nodes[v]) && Distinct(v, c.nodes[v].peers) && NodeId(v)
  {
    hide P.Inv, T.Known;
    assert T.Tracks(p, c.nodes[v]);
  }

  lemma SenderStands(p: P.Proto, c: Cluster, m: Message)
    requires Rel(p, c) && m in c.network
    ensures NodeId(m.from)
  {
    hide P.Inv, T.Tracks;
    assert T.Known(p.voters, p.packets, m);
    NodeStands(p, c, m.from);
  }

  // ----- What a node shows -----

  function DurableTerm(n: NodeState): nat { n.disk.wal.hard.term }

  function DurableVote(n: NodeState): Id { n.disk.wal.hard.votedFor }

  function DurableCommit(n: NodeState): nat { n.disk.wal.hard.commit }

  function DurableLog(n: NodeState): seq<Entry> { n.disk.wal.data }

  /** A replica is what the node's store holds. */
  lemma Shown(p: P.Proto, c: Cluster, v: Id)
    requires Rel(p, c) && v in c.nodes
    ensures v in p.voters && P.Inv(p)
    ensures var n, r := c.nodes[v], p.replicas[v];
      && r.term == DurableTerm(n) && r.votedFor == DurableVote(n) && r.commit == DurableCommit(n) && r.log == DurableLog(n)
      && (n.state == Leader ==>
            && r.role == Leader && n.term == r.term && n.log == r.log && n.commit == r.commit && n.matched == r.matched
            && n.readContext == r.readContext && n.readReady == r.readReady && n.readIndex == r.readIndex)
      && (n.state != Leader ==> r.role != Leader)
  {
    hide P.Inv, T.Known, FixedVoters.PeeredAs;
    assert T.Tracks(p, c.nodes[v]);
  }

  lemma GoodShown(p: P.Proto, c: Cluster, v: Id)
    requires Rel(p, c) && v in c.nodes
    ensures v in p.voters && P.Inv(p) && P.GoodReplica(p, v, p.replicas[v])
    ensures p.replicas[v].log == DurableLog(c.nodes[v]) && p.replicas[v].commit == DurableCommit(c.nodes[v])
    ensures p.replicas[v].term == DurableTerm(c.nodes[v])
    ensures (c.nodes[v].state == Leader) == (p.replicas[v].role == Leader)
    ensures c.nodes[v].state == Leader ==> c.nodes[v].term == DurableTerm(c.nodes[v]) && c.nodes[v].log == DurableLog(c.nodes[v])
  {
    hide Rel;
    Shown(p, c, v);
  }

  /** Memory never holds anything that the store does not: what a running node acts on, a
      restart would bring back. */
  lemma MemoryMirrorsDisk(states: seq<Cluster>, events: seq<Event>, i: nat, v: Id)
    requires Run(states, events) && i < |states| && v in states[i].nodes && !states[i].nodes[v].faulted
    ensures var n := states[i].nodes[v];
      n.term == DurableTerm(n) && n.votedFor == DurableVote(n) && n.commit == DurableCommit(n) && n.log == DurableLog(n)
  {
    hide R.Evolves, P.Inv, T.Known, FixedVoters.PeeredAs;
    var ps := ProtocolBehind(states, events);
    assert Rel(ps[i], states[i]) && T.Tracks(ps[i], states[i].nodes[v]);
  }

  // ----- Terms and leaders -----

  /** At most one node ever leads a term, over the whole run and across restarts. */
  lemma ElectionSafety(states: seq<Cluster>, events: seq<Event>, i: nat, j: nat, a: Id, b: Id)
    requires Run(states, events) && i < |states| && j < |states| && a in states[i].nodes && b in states[j].nodes
    requires states[i].nodes[a].state == Leader && states[j].nodes[b].state == Leader
    requires states[i].nodes[a].term == states[j].nodes[b].term
    ensures a == b
  {
    hide Rel, Run, P.Inv;
    var ps := ProtocolBehind(states, events);
    assert Rel(ps[i], states[i]) && Rel(ps[j], states[j]);
    GoodShown(ps[i], states[i], a);
    GoodShown(ps[j], states[j], b);
    if i <= j { assert R.Evolves(ps[i], ps[j]); } else { assert R.Evolves(ps[j], ps[i]); }
  }

  /** A leader only ever appends to its log while it leads. */
  lemma LeaderAppendOnly(states: seq<Cluster>, events: seq<Event>, i: nat, j: nat, a: Id)
    requires Run(states, events) && i <= j < |states| && a in states[i].nodes && a in states[j].nodes
    requires states[i].nodes[a].state == Leader && states[j].nodes[a].state == Leader
    requires states[i].nodes[a].term == states[j].nodes[a].term
    ensures states[i].nodes[a].log <= states[j].nodes[a].log
  {
    hide Rel, Run, P.Inv;
    var ps := ProtocolBehind(states, events);
    assert Rel(ps[i], states[i]) && Rel(ps[j], states[j]) && R.Evolves(ps[i], ps[j]);
    GoodShown(ps[i], states[i], a);
    GoodShown(ps[j], states[j], a);
  }

  /** Two logs with an entry of the same index and term are the same up to that entry, whoever
      holds them and whenever. */
  lemma LogMatching(states: seq<Cluster>, events: seq<Event>, i: nat, j: nat, a: Id, b: Id, k: nat)
    requires Run(states, events) && i <= j < |states| && a in states[i].nodes && b in states[j].nodes
    requires k < |DurableLog(states[i].nodes[a])| && k < |DurableLog(states[j].nodes[b])|
    requires DurableLog(states[i].nodes[a])[k].term == DurableLog(states[j].nodes[b])[k].term
    ensures DurableLog(states[i].nodes[a])[..k + 1] == DurableLog(states[j].nodes[b])[..k + 1]
  {
    hide Rel, Run, P.Inv;
    var ps := ProtocolBehind(states, events);
    assert Rel(ps[i], states[i]) && Rel(ps[j], states[j]) && R.Evolves(ps[i], ps[j]);
    GoodShown(ps[i], states[i], a);
    GoodShown(ps[j], states[j], b);
    var x, y := DurableLog(states[i].nodes[a]), DurableLog(states[j].nodes[b]);
    R.GoodLogAfter(ps[i], ps[j], x);
    R.LogsMatch(ps[j].reigns, x, y, k);
    SamePrefix(x, y, k);
  }

  lemma SamePrefix(x: seq<Entry>, y: seq<Entry>, k: nat)
    requires P.Agree(x, y, k)
    ensures x[..k + 1] == y[..k + 1]
  {
    assert forall j :: 0 <= j < k + 1 ==> x[..k + 1][j] == x[j] == y[j] == y[..k + 1][j];
  }

  // ----- Committed entries -----

  lemma SanctionedBelow(p: P.Proto, log: seq<Entry>, k: nat, k': nat, limit: nat)
    requires P.Sanctioned(p, log, k, limit) && k' <= k
    ensures P.Sanctioned(p, log, k', limit)
  {
  }

  /** Two logs agree on every index that both know to be committed. */
  lemma SanctionedAgree(p: P.Proto, x: seq<Entry>, y: seq<Entry>, k: nat, limit: nat, limit': nat)
    requires P.Inv(p) && P.Sanctioned(p, x, k, limit) && P.Sanctioned(p, y, k, limit') && k != 0
    ensures P.Agree(x, y, k)
  {
    hide P.Inv;
    var s: nat :| s in p.reigns && s <= limit && k <= p.reigns[s].commit && P.Agree(x, p.reigns[s].log, k);
    var t: nat :| t in p.reigns && t <= limit' && k <= p.reigns[t].commit && P.Agree(y, p.reigns[t].log, k);
    if s <= t {
      assert P.Sanctioned(p, x, k, s);
      R.SanctionedHeld(p, x, k, s, t);
    } else {
      assert P.Sanctioned(p, y, k, t);
      R.SanctionedHeld(p, y, k, t, s);
    }
  }

  /** What a node has committed at some moment is sanctioned from then on. */
  lemma CommittedShown(p: P.Proto, q: P.Proto, c: Cluster, v: Id, k: nat)
    requires Rel(p, c) && v in c.nodes && R.Evolves(p, q) && k <= DurableCommit(c.nodes[v])
    ensures k < |DurableLog(c.nodes[v])|
    ensures P.Sanctioned(q, DurableLog(c.nodes[v]), k, DurableTerm(c.nodes[v]))
  {
    hide Rel, P.Inv, R.Evolves;
    GoodShown(p, c, v);
    var n := c.nodes[v];
    R.SanctionedAfter(p, q, DurableLog(n), DurableCommit(n), DurableTerm(n), DurableTerm(n));
    SanctionedBelow(q, DurableLog(n), DurableCommit(n), k, DurableTerm(n));
  }

  /** No two nodes, at any two moments of a run, disagree on an index both have committed. */
  lemma CommittedPrefixAgreement(states: seq<Cluster>, events: seq<Event>, i: nat, j: nat, a: Id, b: Id, k: nat)
    requires Run(states, events) && i <= j < |states| && a in states[i].nodes && b in states[j].nodes
    requires k <= DurableCommit(states[i].nodes[a]) && k <= DurableCommit(states[j].nodes[b])
    ensures k < |DurableLog(states[i].nodes[a])| && k < |DurableLog(states[j].nodes[b])|
    ensures DurableLog(states[i].nodes[a])[..k + 1] == DurableLog(states[j].nodes[b])[..k + 1]
  {
    hide Rel, Run, P.Inv, R.Evolves, P.Sanctioned, P.Agree;
    var ps := ProtocolBehind(states, events);
    assert Rel(ps[i], states[i]) && Rel(ps[j], states[j]) && R.Evolves(ps[i], ps[j]) && R.Evolves(ps[j], ps[j]);
    CommittedShown(ps[i], ps[j], states[i], a, k);
    CommittedShown(ps[j], ps[j], states[j], b, k);
    var x, y := DurableLog(states[i].nodes[a]), DurableLog(states[j].nodes[b]);
    Bottom(ps[i], states[i], a);
    Bottom(ps[j], states[j], b);
    if k != 0 {
      SanctionedAgree(ps[j], x, y, k, DurableTerm(states[i].nodes[a]), DurableTerm(states[j].nodes[b]));
      SamePrefix(x, y, k);
    }
  }

  /** Every log starts with the empty entry. */
  lemma Bottom(p: P.Proto, c: Cluster, v: Id)
    requires Rel(p, c) && v in c.nodes
    ensures P.Inv(p) && 0 < |DurableLog(c.nodes[v])| && DurableLog(c.nodes[v])[..1] == [ZERO_ENTRY]
  {
    hide Rel, P.Inv;
    GoodShown(p, c, v);
  }

  /** What a node has committed stays committed and unchanged on its disk, whatever it stores,
      drops or adopts later and however often it crashes. */
  lemma CommittedForever(states: seq<Cluster>, events: seq<Event>, i: nat, j: nat, a: Id)
    requires Run(states, events) && i <= j < |states| && a in states[i].nodes
    ensures a in states[j].nodes
    ensures var n, n' := states[i].nodes[a], states[j].nodes[a];
      && DurableCommit(n) <= DurableCommit(n') && DurableTerm(n) <= DurableTerm(n')
      && DurableCommit(n) < |DurableLog(n)| && DurableCommit(n') < |DurableLog(n')|
      && DurableLog(n')[..DurableCommit(n) + 1] == DurableLog(n)[..DurableCommit(n) + 1]
  {
    hide Rel, Run, R.Evolves;
    var ps := ProtocolBehind(states, events);
    assert Rel(ps[i], states[i]) && Rel(ps[j], states[j]) && R.Evolves(ps[i], ps[j]);
    Grows(ps[i], ps[j], states[i], states[j], a);
    CommittedPrefixAgreement(states, events, j, j, a, a, DurableCommit(states[j].nodes[a]));
    CommittedPrefixAgreement(states, events, i, j, a, a, DurableCommit(states[i].nodes[a]));
  }

  lemma Grows(p: P.Proto, q: P.Proto, c: Cluster, d: Cluster, v: Id)
    requires Rel(p, c) && Rel(q, d) && R.Evolves(p, q) && v in c.nodes
    ensures v in d.nodes
    ensures DurableCommit(c.nodes[v]) <= DurableCommit(d.nodes[v]) && DurableTerm(c.nodes[v]) <= DurableTerm(d.nodes[v])
  {
    SameNodes(p, q, c, d);
    hide Rel, P.Inv;
    Shown(p, c, v);
    Shown(q, d, v);
  }

  lemma SameNodes(p: P.Proto, q: P.Proto, c: Cluster, d: Cluster)
    requires Rel(p, c) && Rel(q, d) && R.Evolves(p, q)
    ensures c.nodes.Keys == d.nodes.Keys
  {
    hide P.Inv, T.Tracks, T.Known;
  }

  /** A leader holds everything that was committed in its term or before it. */
  lemma LeaderCompleteness(states: seq<Cluster>, events: seq<Event>, i: nat, j: nat, a: Id, b: Id, k: nat)
    requires Run(states, events) && i <= j < |states| && a in states[i].nodes && b in states[j].nodes
    requires states[j].nodes[b].state == Leader && DurableTerm(states[i].nodes[a]) <= states[j].nodes[b].term
    requires k <= DurableCommit(states[i].nodes[a])
    ensures k < |DurableLog(states[i].nodes[a])| && k < |states[j].nodes[b].log|
    ensures states[j].nodes[b].log[..k + 1] == DurableLog(states[i].nodes[a])[..k + 1]
  {
    hide Rel, Run, P.Inv, R.Evolves, P.Sanctioned;
    var ps := ProtocolBehind(states, events);
    var p, n, m := ps[j], states[i].nodes[a], states[j].nodes[b];
    assert Rel(ps[i], states[i]) && Rel(p, states[j]) && R.Evolves(ps[i], p);
    CommittedShown(ps[i], p, states[i], a, k);
    GoodShown(p, states[j], b);
    Bottom(ps[i], states[i], a);
    Bottom(p, states[j], b);
    if k != 0 {
      R.SanctionedHeld(p, DurableLog(n), k, DurableTerm(n), m.term);
      SamePrefix(m.log, DurableLog(n), k);
    }
  }

  // ----- Promises made to others -----

  /** While a follower has not left the leader's term, its log holds everything the leader
      believes it to hold. */
  lemma MatchIsSound(states: seq<Cluster>, events: seq<Event>, i: nat, a: Id, b: Id)
    requires Run(states, events) && i < |states| && a in states[i].nodes && b in states[i].nodes
    requires var n := states[i].nodes[a]; n.state == Leader && b in n.matched && n.term == DurableTerm(states[i].nodes[b])
    ensures var n, k := states[i].nodes[a], states[i].nodes[a].matched[b];
      k < |n.log| && k < |DurableLog(states[i].nodes[b])| && n.log[..k + 1] == DurableLog(states[i].nodes[b])[..k + 1]
  {
    hide Rel, Run, P.Inv, R.Evolves, P.Sanctioned;
    var ps := ProtocolBehind(states, events);
    var p, n, k := ps[i], states[i].nodes[a], states[i].nodes[a].matched[b];
    assert Rel(p, states[i]);
    GoodShown(p, states[i], a);
    GoodShown(p, states[i], b);
    Shown(p, states[i], a);
    Bottom(p, states[i], a);
    Bottom(p, states[i], b);
    if k != 0 {
      assert P.Acked(p, b, n.term, k);
      SamePrefix(n.log, DurableLog(states[i].nodes[b]), k);
    }
  }

  /** A message that somebody has sent. */
  predicate Sent(c: Cluster, m: Message) {
    m in c.network || exists v :: v in c.nodes && m in c.nodes[v].outbound
  }

  lemma SentKnown(p: P.Proto, c: Cluster, m: Message)
    requires Rel(p, c) && Sent(c, m)
    ensures P.Inv(p) && p.voters == c.nodes.Keys && T.Known(p.voters, p.packets, m)
  {
    hide P.Inv, T.NodeOk;
  }

  /** A granted vote is on the voter's disk before anybody can see it, and stays there for as
      long as the voter is in that term. */
  lemma VoteIsDurable(states: seq<Cluster>, events: seq<Event>, i: nat, j: nat, m: Message)
    requires Run(states, events) && i <= j < |states| && Sent(states[i], m)
    requires m.kind == RequestVoteResponse && !m.reject
    ensures m.from in states[j].nodes
    ensures var n := states[j].nodes[m.from];
      m.term < DurableTerm(n) || (m.term == DurableTerm(n) && DurableVote(n) == m.to)
  {
    hide Rel, Run, P.Inv, R.Evolves;
    var ps := ProtocolBehind(states, events);
    assert Rel(ps[i], states[i]) && Rel(ps[j], states[j]) && R.Evolves(ps[i], ps[j]);
    SentKnown(ps[i], states[i], m);
    SameNodes(ps[i], ps[j], states[i], states[j]);
    Shown(ps[j], states[j], m.from);
    Granted(ps[i], ps[j], m.from, m.to, m.term);
  }

  lemma Granted(p: P.Proto, q: P.Proto, v: Id, c: Id, t: nat)
    requires P.Inv(p) && P.Inv(q) && R.Evolves(p, q) && v in q.voters && P.VoteGrant(v, c, t) in p.packets
    ensures (v, t) in p.ballots && p.ballots[(v, t)].candidate == c
    ensures (v, t) in q.ballots && q.ballots[(v, t)].candidate == c
    ensures var r := q.replicas[v]; t < r.term || (t == r.term && r.votedFor == c)
  {
    assert P.GoodPacket(p, P.VoteGrant(v, c, t));
    assert P.GoodBallot(q, v, t) && P.GoodReplica(q, v, q.replicas[v]);
  }

  /** No voter grants two different candidates a vote in the same term, ever. */
  lemma OneVotePerTerm(states: seq<Cluster>, events: seq<Event>, i: nat, j: nat, m: Message, m': Message)
    requires Run(states, events) && i <= j < |states| && Sent(states[i], m) && Sent(states[j], m')
    requires m.kind == RequestVoteResponse && !m.reject && m'.kind == RequestVoteResponse && !m'.reject
    requires m.from == m'.from && m.term == m'.term
    ensures m.to == m'.to
  {
    hide Rel, Run, P.Inv, R.Evolves;
    var ps := ProtocolBehind(states, events);
    assert Rel(ps[i], states[i]) && Rel(ps[j], states[j]) && R.Evolves(ps[i], ps[j]) && R.Evolves(ps[j], ps[j]);
    SentKnown(ps[i], states[i], m);
    SentKnown(ps[j], states[j], m');
    Granted(ps[i], ps[j], m.from, m.to, m.term);
    Granted(ps[j], ps[j], m.from, m'.to, m.term);
  }

  predicate Leads(c: Cluster, a: Id, t: nat) {
    a in c.nodes && c.nodes[a].state == Leader && c.nodes[a].term == t
  }

  /** An acknowledged prefix is on the follower's disk before anybody can hear of it, and stays
      there for as long as the follower is in that term; it is the prefix that the leader of the
      term holds, whenever that leader is asked. */
  lemma AckIsDurable(states: seq<Cluster>, events: seq<Event>, i: nat, j: nat, m: Message)
    requires Run(states, events) && i <= j < |states| && Sent(states[i], m)
    requires m.kind == AppendResponse && !m.reject
    ensures m.from in states[j].nodes && m.term <= DurableTerm(states[j].nodes[m.from])
    ensures m.term == DurableTerm(states[j].nodes[m.from]) ==>
      var log := DurableLog(states[j].nodes[m.from]);
      && m.acked < |log|
      && forall a :: Leads(states[j], a, m.term) ==> m.acked < |states[j].nodes[a].log| && states[j].nodes[a].log[..m.acked + 1] == log[..m.acked + 1]
  {
    hide Rel, Run, P.Inv, P.Sanctioned, R.Evolves, T.Known;
    var ps := ProtocolBehind(states, events);
    var p := ps[j];
    assert Rel(ps[i], states[i]) && Rel(p, states[j]) && R.Evolves(ps[i], p);
    SentFrom(ps[i], states[i], m);
    SameNodes(ps[i], p, states[i], states[j]);
    Acknowledged(ps[i], p, m);
    GoodShown(p, states[j], m.from);
    AckHeld(p, m.from, m.term, m.acked);
    forall a | Leads(states[j], a, m.term) && m.term == DurableTerm(states[j].nodes[m.from])
      ensures m.acked < |states[j].nodes[a].log|
      ensures m.acked < |DurableLog(states[j].nodes[m.from])|
      ensures states[j].nodes[a].log[..m.acked + 1] == DurableLog(states[j].nodes[m.from])[..m.acked + 1]
    {
      GoodShown(p, states[j], a);
      SamePrefix(states[j].nodes[a].log, DurableLog(states[j].nodes[m.from]), m.acked);
    }
  }

  lemma SentFrom(p: P.Proto, c: Cluster, m: Message)
    requires Rel(p, c) && Sent(c, m)
    ensures P.Inv(p) && m.from in c.nodes && T.Known(p.voters, p.packets, m)
  {
    hide Rel;
    SentKnown(p, c, m);
  }

  /** The acknowledging replica is in the term or past it; in it, its log is the leader's as far
      as it has acknowledged. */
  lemma AckHeld(p: P.Proto, v: Id, t: nat, k: nat)
    requires P.Inv(p) && P.Acked(p, v, t, k)
    ensures v in p.voters && t in p.reigns && t <= p.replicas[v].term
    ensures t == p.replicas[v].term ==> P.Agree(p.reigns[t].log, p.replicas[v].log, k)
  {
    assert P.GoodAck(p, v, t);
    assert P.GoodReplica(p, v, p.replicas[v]);
  }

  lemma Acknowledged(p: P.Proto, q: P.Proto, m: Message)
    requires P.Inv(p) && R.Evolves(p, q) && T.Known(p.voters, p.packets, m) && m.kind == AppendResponse && !m.reject
    ensures P.Acked(q, m.from, m.term, m.acked)
  {
    assert P.GoodPacket(p, P.AppendAck(m.from, m.term, m.acked, m.context));
  }

  // ----- Reads -----

  /** The first read barrier that node `events[k].id` accepted with this context in its term. */
  predicate FirstBarrier(states: seq<Cluster>, events: seq<Event>, k: nat)
    requires |states| == |events| + 1 && k < |events| && forall i :: 0 <= i < |events| ==> Enabled(states[i], events[i])
  {
    var v := events[k].id;
    && Opens(states[k], events[k])
    && forall i :: 0 <= i < k && events[i].id == v && Opens(states[i], events[i]) && events[i].call.context == events[k].call.context ==>
         states[i].nodes[v].term != states[k].nodes[v].term
  }

  /** Only the leader of a term opens barriers in it, so a barrier is there only if it did. */
  lemma {:induction false} BarrierOrigin(ps: seq<P.Proto>, states: seq<Cluster>, events: seq<Event>, j: nat, t: nat, context: nat)
    returns (i: nat)
    requires Behind(ps, states) && Opening(ps, states, events) && j < |ps| && (t, context) in ps[j].barriers
    ensures i < j && Opens(states[i], events[i]) && events[i].call.context == context && states[i].nodes[events[i].id].term == t
    decreases j
  {
    hide Rel, R.Evolves, Opens, Enabled;
    assert 0 < j;
    assert Barred(ps[j - 1], ps[j], states[j - 1], events[j - 1]);
    if (t, context) in ps[j - 1].barriers {
      i := BarrierOrigin(ps, states, events, j - 1, t, context);
    } else {
      i := j - 1;
    }
  }

  lemma OpenerLeads(c: Cluster, e: Event)
    requires Enabled(c, e) && Opens(c, e)
    ensures c.nodes[e.id].state == Leader
  {
  }

  /** A read that completes in the term in which its barrier was first accepted is up to date. */
  lemma ReadInTerm(states: seq<Cluster>, events: seq<Event>, k: nat, j: nat, index: nat, x: Id)
    requires Run(states, events) && k < |events| && FirstBarrier(states, events, k)
    requires k < j < |states| && events[k].id in states[j].nodes && x in states[k].nodes
    requires states[j].nodes[events[k].id].term == states[k].nodes[events[k].id].term
    requires ReadIndex(states[j].nodes[events[k].id], events[k].call.context) == Some(index)
    ensures DurableCommit(states[k].nodes[x]) <= index
  {
    hide Rel, R.Evolves, CanStartRead, C.OpensOnly, P.Inv, Next, Init;
    var ps := ProtocolBehind(states, events);
    var v, context := events[k].id, events[k].call.context;
    var t := states[k].nodes[v].term;
    NotYetOpen(ps, states, events, k);
    assert Rel(ps[k], states[k]) && Rel(ps[j], states[j]) && R.Evolves(ps[k + 1], ps[j]) && Barred(ps[k], ps[k + 1], states[k], events[k]);
    Shown(ps[k], states[k], x);
    BarrierRecords(ps[k], ps[k + 1], ps[j], t, context, x);
    GoodShown(ps[j], states[j], v);
    Shown(ps[j], states[j], v);
  }

  /** A read that completes was opened earlier, by the same node in the term it leads now. */
  lemma ReadWasOpened(states: seq<Cluster>, events: seq<Event>, j: nat, w: Id, context: nat) returns (i: nat)
    requires |states| == |events| + 1 && Run(states, events) && j < |states| && w in states[j].nodes
    requires ReadIndex(states[j].nodes[w], context).Some?
    ensures i < j && i < |events| && Enabled(states[i], events[i]) && Opens(states[i], events[i])
    ensures events[i].id == w && events[i].call.context == context && states[i].nodes[w].term == states[j].nodes[w].term
  {
    hide Rel, R.Evolves, CanStartRead, P.Inv, Next, Init;
    var ps := ProtocolBehind(states, events);
    var t := states[j].nodes[w].term;
    assert Rel(ps[j], states[j]);
    ReadyIsBarred(ps[j], states[j], w);
    i := BarrierOrigin(ps, states, events, j, t, context);
    OpenerLeads(states[i], events[i]);
    ElectionSafety(states, events, i, j, events[i].id, w);
  }

  lemma ReadyIsBarred(p: P.Proto, c: Cluster, w: Id)
    requires Rel(p, c) && w in c.nodes && c.nodes[w].state == Leader && c.nodes[w].readReady
    ensures (c.nodes[w].term, c.nodes[w].readContext) in p.barriers
  {
    hide Rel, P.Inv;
    GoodShown(p, c, w);
    Shown(p, c, w);
  }

  /** Barrier `k` is the only one that is accepted with its context before moment `j`. */
  predicate OnlyBarrier(states: seq<Cluster>, events: seq<Event>, k: nat, j: nat)
    requires |states| == |events| + 1 && k < j < |states| && forall i :: 0 <= i < |events| ==> Enabled(states[i], events[i])
  {
    && Opens(states[k], events[k])
    && forall i :: 0 <= i < j && Opens(states[i], events[i]) && events[i].call.context == events[k].call.context ==> i == k
  }

  /**
   * A read that completes is up to date: its index is at least every commit index that any
   * node held when the barrier with its context was accepted, whatever was elected or committed
   * since, and whichever node is asked.
   */
  lemma ReadBarrier(states: seq<Cluster>, events: seq<Event>, k: nat, j: nat, w: Id, index: nat, x: Id)
    requires Run(states, events) && k < j < |states| && OnlyBarrier(states, events, k, j)
    requires w in states[j].nodes && ReadIndex(states[j].nodes[w], events[k].call.context) == Some(index) && x in states[k].nodes
    ensures w == events[k].id && DurableCommit(states[k].nodes[x]) <= index
  {
    hide CanStartRead, Next, Init, Enabled;
    var i := ReadWasOpened(states, events, j, w, events[k].call.context);
    assert i == k;
    ReadInTerm(states, events, k, j, index, x);
  }

  lemma NotYetOpen(ps: seq<P.Proto>, states: seq<Cluster>, events: seq<Event>, k: nat)
    requires Run(states, events) && k < |events| && FirstBarrier(states, events, k)
    requires Behind(ps, states) && Opening(ps, states, events)
    ensures (states[k].nodes[events[k].id].term, events[k].call.context) !in ps[k].barriers
  {
    hide Rel, R.Evolves, CanStartRead, P.Inv, Next, Init, Behind;
    var v, context := events[k].id, events[k].call.context;
    if (states[k].nodes[v].term, context) in ps[k].barriers {
      var i := BarrierOrigin(ps, states, events, k, states[k].nodes[v].term, context);
      OpenerLeads(states[i], events[i]);
      OpenerLeads(states[k], events[k]);
      ElectionSafety(states, events, i, k, events[i].id, v);
      assert false;
    }
  }

  /** The barrier keeps the commit index that `x` held when it was opened. */
  lemma BarrierRecords(p: P.Proto, p': P.Proto, q: P.Proto, t: nat, context: nat, x: Id)
    requires C.OpensOnly(p, p', t, context) && (t, context) !in p.barriers && R.Evolves(p', q) && x in p.voters
    ensures (t, context) in q.barriers && x in q.barriers[(t, context)].commits
    ensures q.barriers[(t, context)].commits[x] == p.replicas[x].commit
  {
  }

  // ----- What the state machines see -----

  lemma {:induction false} AppliedPrefix(n: NodeState, m: NodeState, index: nat)
    requires n.baseIndex == 0 == m.baseIndex && n.commit <= m.commit < |m.log| && n.commit < |n.log|
    requires n.log[..n.commit + 1] == m.log[..n.commit + 1]
    ensures AppliedFrom(n, index) <= AppliedFrom(m, index)
    decreases n.commit - index
  {
    if index < n.commit {
      AppliedPrefix(n, m, index + 1);
      assert n.log[..n.commit + 1][index + 1] == m.log[..n.commit + 1][index + 1];
    }
  }

  lemma Uncompacted(states: seq<Cluster>, events: seq<Event>, i: nat, v: Id)
    requires Run(states, events) && i < |states| && v in states[i].nodes && !states[i].nodes[v].faulted
    ensures states[i].nodes[v].baseIndex == 0
  {
    hide R.Evolves, P.Inv, T.Known, FixedVoters.PeeredAs;
    var ps := ProtocolBehind(states, events);
    assert Rel(ps[i], states[i]) && T.Tracks(ps[i], states[i].nodes[v]);
  }

  /** The commands two nodes hand to their state machines, from the first on, are the same in
      the same order: the node that has committed less has seen a prefix of what the other has. */
  lemma SameCommands(states: seq<Cluster>, events: seq<Event>, i: nat, j: nat, a: Id, b: Id)
    requires Run(states, events) && i < |states| && j < |states| && a in states[i].nodes && b in states[j].nodes
    requires !states[i].nodes[a].faulted && !states[j].nodes[b].faulted && states[i].nodes[a].commit <= states[j].nodes[b].commit
    ensures AppliedFrom(states[i].nodes[a], 0) <= AppliedFrom(states[j].nodes[b], 0)
  {
    hide Run, AppliedFrom;
    var n, m := states[i].nodes[a], states[j].nodes[b];
    MemoryMirrorsDisk(states, events, i, a);
    MemoryMirrorsDisk(states, events, j, b);
    Uncompacted(states, events, i, a);
    Uncompacted(states, events, j, b);
    CommittedPrefixAgreement(states, events, j, j, b, b, m.commit);
    if i <= j {
      CommittedPrefixAgreement(states, events, i, j, a, b, n.commit);
    } else {
      CommittedPrefixAgreement(states, events, j, i, b, a, n.commit);
    }
    AppliedPrefix(n, m, 0);
  }
}
