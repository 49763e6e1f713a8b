/**
 * The atomic steps of the protocol, each shown to keep the invariant of RaftProtocol.
 * Every step of a concrete node is a short sequence of these.
 */
module RaftSteps {
  import opened Quorums
  import opened RaftTypes
  import opened RaftProtocol

  // ----- How history grows -----

  predicate Extends(before: Reign, after: Reign) {
    && before.leader == after.leader && before.commit <= after.commit
    && before.log <= after.log
  }

  /** Terms, commit indexes, acknowledgements, reigns and ballots only grow, and a voter acknowledges an
      entry of term `t` only while its own term does not exceed `t`. */
  ghost predicate Evolves(p: Proto, q: Proto) {
    && p.voters == q.voters
    && (forall v :: v in p.voters ==> p.replicas[v].term <= q.replicas[v].term && p.replicas[v].commit <= q.replicas[v].commit)
    && (forall t :: t in p.reigns ==> t in q.reigns && Extends(p.reigns[t], q.reigns[t]))
    && (forall v, t :: (v, t) in p.acks ==> (v, t) in q.acks && p.acks[(v, t)] <= q.acks[(v, t)])
    && (forall v: Id, t: nat, i: nat {:trigger Acked(q, v, t, i)} ::
          v in p.voters && Acked(q, v, t, i) ==> Acked(p, v, t, i) || p.replicas[v].term <= t)
    && (forall b :: b in p.ballots ==> b in q.ballots && p.ballots[b] == q.ballots[b])
    && (forall b :: b in p.barriers ==> b in q.barriers && p.barriers[b] == q.barriers[b])
    && p.packets <= q.packets
  }

  /** Nothing that could not be committed before can be committed now. */
  lemma ChoosableBefore(p: Proto, q: Proto, t: nat, i: nat)
    requires Evolves(p, q) && Choosable(q, t, i)
    ensures Choosable(p, t, i)
  {
    QuorumGrows(p.voters, Potential(q, t, i), Potential(p, t, i));
  }

  lemma DurableAfter(p: Proto, q: Proto, t: nat, i: nat)
    requires Evolves(p, q) && Durable(p, t, i)
    ensures Durable(q, t, i)
  {
    QuorumGrows(p.voters, Ackers(p, t, i), Ackers(q, t, i));
  }

  lemma DurableIsChoosable(p: Proto, t: nat, i: nat)
    requires Durable(p, t, i)
    ensures Choosable(p, t, i)
  {
    QuorumGrows(p.voters, Ackers(p, t, i), Potential(p, t, i));
  }

  lemma GoodLogAfter(p: Proto, q: Proto, log: seq<Entry>)
    requires Evolves(p, q) && GoodLog(p.reigns, log)
    ensures GoodLog(q.reigns, log)
  {
    forall i | 0 < i < |log| ensures SourcedAt(q.reigns, log, i) {
      assert SourcedAt(p.reigns, log, i);
    }
  }

  lemma SanctionedAfter(p: Proto, q: Proto, log: seq<Entry>, k: nat, limit: nat, limit': nat)
    requires Evolves(p, q) && Sanctioned(p, log, k, limit) && limit <= limit'
    ensures Sanctioned(q, log, k, limit')
  {
  }

  lemma BackedAfter(p: Proto, q: Proto, t: nat, log: seq<Entry>, k: nat)
    requires Evolves(p, q) && Backed(p, t, log, k)
    ensures Backed(q, t, log, k)
  {
    if k != 0 {
      var t': nat, i: nat :| t' <= t && Durable(p, t', i) && k <= i && Agree(log, p.reigns[t'].log, k);
      DurableAfter(p, q, t', i);
    }
  }

  lemma VotersForAfter(p: Proto, q: Proto, t: nat, c: Id)
    requires Evolves(p, q)
    ensures VotersFor(p, t, c) <= VotersFor(q, t, c)
  {
  }

  lemma PacketAfter(p: Proto, q: Proto, m: Packet)
    requires Evolves(p, q) && GoodPacket(p, m)
    ensures GoodPacket(q, m)
  {
  }

  lemma BarrierAfter(p: Proto, q: Proto, t: nat, c: nat)
    requires Evolves(p, q) && (t, c) in p.barriers && GoodBarrier(p, t, c)
    ensures GoodBarrier(q, t, c)
  {
    var b := p.barriers[(t, c)];
    assert AheadAt(p, b, t) == AheadAt(q, b, t);
  }

  /** The only new own entries are ones no later leader has to hold. */
  ghost predicate NothingNewBelow(p: Proto, q: Proto, t: nat) {
    forall t': nat, i: nat {:trigger OwnEntry(q, t', i)} ::
      t' < t && OwnEntry(q, t', i) ==> OwnEntry(p, t', i) || !Choosable(q, t', i)
  }

  lemma HoldsEarlierAfter(p: Proto, q: Proto, t: nat, log: seq<Entry>)
    requires Evolves(p, q) && HoldsEarlier(p, t, log) && NothingNewBelow(p, q, t)
    ensures HoldsEarlier(q, t, log)
  {
    forall t': nat, i: nat | t' < t && OwnEntry(q, t', i) && Choosable(q, t', i)
      ensures Agree(log, q.reigns[t'].log, i)
    {
      assert OwnEntry(p, t', i);
      ChoosableBefore(p, q, t', i);
    }
  }

  lemma ReignAfter(p: Proto, q: Proto, t: nat)
    requires Evolves(p, q) && t in p.reigns && GoodReign(p, t) && q.reigns[t] == p.reigns[t]
    requires q.acks[(p.reigns[t].leader, t)] == p.acks[(p.reigns[t].leader, t)]
    requires NothingNewBelow(p, q, t)
    ensures GoodReign(q, t)
  {
    var g := p.reigns[t];
    VotersForAfter(p, q, t, g.leader);
    QuorumGrows(p.voters, VotersFor(p, t, g.leader), VotersFor(q, t, g.leader));
    HoldsEarlierAfter(p, q, t, g.log);
    BackedAfter(p, q, t, g.log, g.commit);
    GoodLogAfter(p, q, g.log);
  }

  /** Every entry `v` is newly bound to was bound before, or does not exist yet. */
  ghost predicate SameAcks(p: Proto, q: Proto, v: Id) {
    forall t :: (v, t) in q.acks ==> (v, t) in p.acks && q.acks[(v, t)] == p.acks[(v, t)]
  }

  lemma BallotKeepsAfter(p: Proto, q: Proto, v: Id, t: nat, log: seq<Entry>)
    requires Evolves(p, q) && BallotKeeps(p, v, t, log)
    requires forall t' :: t' < t && (v, t') in q.acks ==>
      (v, t') in p.acks && q.acks[(v, t')] == p.acks[(v, t')] && GoodAck(p, v, t')
    ensures BallotKeeps(q, v, t, log)
  {
    forall t': nat, i: nat | t' < t && OwnEntry(q, t', i) && Acked(q, v, t', i) && Choosable(q, t', i)
      ensures Agree(log, q.reigns[t'].log, i)
    {
      assert Acked(p, v, t', i);
      assert OwnEntry(p, t', i);
      ChoosableBefore(p, q, t', i);
    }
  }

  lemma BallotAfter(p: Proto, q: Proto, v: Id, t: nat)
    requires Evolves(p, q) && (v, t) in p.ballots && GoodBallot(p, v, t)
    requires forall t' :: t' < t && (v, t') in q.acks ==>
      (v, t') in p.acks && q.acks[(v, t')] == p.acks[(v, t')] && GoodAck(p, v, t')
    ensures GoodBallot(q, v, t)
  {
    BallotKeepsAfter(p, q, v, t, p.ballots[(v, t)].log);
    GoodLogAfter(p, q, p.ballots[(v, t)].log);
  }

  lemma PromisesAfter(p: Proto, q: Proto, v: Id, t: nat, log: seq<Entry>)
    requires Evolves(p, q) && KeepsPromises(p, v, t, log) && SameAcks(p, q, v)
    requires forall t' :: (v, t') in p.acks ==> GoodAck(p, v, t')
    ensures KeepsPromises(q, v, t, log)
  {
    forall t': nat, i: nat | OwnEntry(q, t', i) && Acked(q, v, t', i) && Choosable(q, t', i)
      ensures Agree(log, q.reigns[t'].log, i)
    {
      assert Acked(p, v, t', i);
      assert OwnEntry(p, t', i);
      ChoosableBefore(p, q, t', i);
    }
  }

  lemma RoleAfter(p: Proto, q: Proto, v: Id, r: Replica)
    requires Evolves(p, q) && GoodRole(p, v, r)
    requires r.role == Leader ==> q.reigns[r.term] == p.reigns[r.term]
    requires forall c :: (r.term, c) in q.barriers && r.role == Leader ==> (r.term, c) in p.barriers
    requires r.role == Candidate && r.term in q.reigns && q.reigns[r.term].leader == v ==> r.term in p.reigns
    ensures GoodRole(q, v, r)
  {
    VotersForAfter(p, q, r.term, v);
    assert forall w :: w in r.matched && Acked(p, w, r.term, r.matched[w]) ==> Acked(q, w, r.term, r.matched[w]);
  }

  lemma ReplicaAfter(p: Proto, q: Proto, v: Id, r: Replica)
    requires Evolves(p, q) && GoodReplica(p, v, r) && SameAcks(p, q, v)
    requires forall t :: (v, t) in p.acks ==> GoodAck(p, v, t)
    requires (v, r.term) in q.ballots ==> (v, r.term) in p.ballots
    requires GoodRole(q, v, r)
    ensures GoodReplica(q, v, r)
  {
    GoodLogAfter(p, q, r.log);
    PromisesAfter(p, q, v, r.term, r.log);
    SanctionedAfter(p, q, r.log, r.commit, r.term, r.term);
  }

  // ----- One replica acts, the rest stand still -----

  ghost predicate Elsewhere(p: Proto, q: Proto, v: Id) {
    && (forall w :: w in p.voters && w != v ==> w in q.voters && q.replicas[w] == p.replicas[w] && SameAcks(p, q, w))
    && (forall w, t :: (w, t) in q.ballots && w != v ==> (w, t) in p.ballots)
    && (forall w, t :: (w, t) in q.acks && w != v ==> (w, t) in p.acks)
    && (forall t :: t in q.reigns && q.reigns[t].leader != v ==> t in p.reigns && q.reigns[t] == p.reigns[t])
    && (forall t, c :: (t, c) in q.barriers && (t, c) !in p.barriers ==> t in p.reigns && p.reigns[t].leader == v)
  }

  lemma OthersKeep(p: Proto, q: Proto, v: Id, w: Id)
    requires Inv(p) && Evolves(p, q) && Elsewhere(p, q, v) && w in p.voters && w != v
    ensures GoodReplica(q, w, q.replicas[w])
  {
    var r := p.replicas[w];
    assert GoodReplica(p, w, r);
    RoleAfter(p, q, w, r);
    ReplicaAfter(p, q, w, r);
  }

  /** What the acting replica owes: its new acknowledgements are all in the term it was in. */
  ghost predicate OwnAcks(p: Proto, q: Proto, v: Id) {
    forall t :: (v, t) in q.acks ==>
      && v in p.voters && GoodAck(q, v, t)
      && (t != p.replicas[v].term ==> (v, t) in p.acks && q.acks[(v, t)] == p.acks[(v, t)])
  }

  lemma BallotsKeep(p: Proto, q: Proto, v: Id, w: Id, t: nat)
    requires Inv(p) && Evolves(p, q) && Elsewhere(p, q, v) && OwnAcks(p, q, v)
    requires (w, t) in p.ballots
    ensures GoodBallot(q, w, t)
  {
    assert GoodBallot(p, w, t);
    forall t' | t' < t && (w, t') in q.acks
      ensures (w, t') in p.acks && q.acks[(w, t')] == p.acks[(w, t')] && GoodAck(p, w, t')
    {
    }
    BallotAfter(p, q, w, t);
  }

  lemma AcksKeep(p: Proto, q: Proto, v: Id, w: Id, t: nat)
    requires Inv(p) && Evolves(p, q) && Elsewhere(p, q, v) && OwnAcks(p, q, v)
    requires (w, t) in q.acks
    ensures GoodAck(q, w, t)
  {
    if w != v {
      assert GoodAck(p, w, t);
      assert SameAcks(p, q, w);
    }
  }

  lemma ReignsKeep(p: Proto, q: Proto, v: Id, t: nat)
    requires Inv(p) && Evolves(p, q) && Elsewhere(p, q, v) && OwnAcks(p, q, v)
    requires t in p.reigns && q.reigns[t] == p.reigns[t] && NothingNewBelow(p, q, t)
    ensures GoodReign(q, t)
  {
    var c := p.reigns[t].leader;
    assert GoodReign(p, t);
    assert q.acks[(c, t)] == p.acks[(c, t)] by {
      if c == v { assert GoodAck(q, v, t); } else { assert SameAcks(p, q, c); }
    }
    ReignAfter(p, q, t);
  }

  /** A step of `v` keeps the invariant when its own new state, ballots, reigns, packets and
      barriers are in order. */
  lemma StepKeeps(p: Proto, q: Proto, v: Id)
    requires Inv(p) && Evolves(p, q) && Elsewhere(p, q, v) && OwnAcks(p, q, v)
    requires v in p.voters ==> GoodReplica(q, v, q.replicas[v])
    requires forall t :: (v, t) in q.ballots && (v, t) !in p.ballots ==> GoodBallot(q, v, t)
    requires forall t :: t in q.reigns ==>
      GoodReign(q, t) || (t in p.reigns && q.reigns[t] == p.reigns[t] && NothingNewBelow(p, q, t))
    requires forall m :: m in q.packets && m !in p.packets ==> GoodPacket(q, m)
    requires forall t, c :: (t, c) in q.barriers && (t, c) !in p.barriers ==> GoodBarrier(q, t, c)
    ensures Inv(q)
  {
    forall w | w in q.voters ensures GoodReplica(q, w, q.replicas[w]) {
      if w != v { OthersKeep(p, q, v, w); }
    }
    forall w, t | (w, t) in q.acks ensures GoodAck(q, w, t) { AcksKeep(p, q, v, w, t); }
    forall w, t | (w, t) in q.ballots ensures GoodBallot(q, w, t) {
      if (w, t) in p.ballots { BallotsKeep(p, q, v, w, t); }
    }
    forall t | t in q.reigns ensures GoodReign(q, t) {
      if !GoodReign(q, t) { ReignsKeep(p, q, v, t); }
    }
    forall m | m in q.packets ensures GoodPacket(q, m) {
      if m in p.packets { PacketAfter(p, q, m); }
    }
    forall t, c | (t, c) in q.barriers ensures GoodBarrier(q, t, c) {
      if (t, c) in p.barriers { BarrierAfter(p, q, t, c); }
    }
  }

  // ----- Steps that change one replica and no history -----

  function WithReplica(p: Proto, v: Id, r: Replica): Proto
    requires v in p.voters
  {
    p.(replicas := p.replicas[v := r])
  }

  lemma ReplicaEvolves(p: Proto, v: Id, r: Replica)
    requires v in p.voters && p.replicas[v].term <= r.term && p.replicas[v].commit <= r.commit
    ensures Evolves(p, WithReplica(p, v, r))
  {
  }

  /** The conditions on the new state may be checked before the step: history stands still. */
  lemma ReplicaStep(p: Proto, v: Id, r: Replica)
    requires Inv(p) && v in p.voters && GoodReplica(p, v, r)
    requires p.replicas[v].term <= r.term && p.replicas[v].commit <= r.commit
    ensures Inv(WithReplica(p, v, r)) && Evolves(p, WithReplica(p, v, r))
  {
    var q := WithReplica(p, v, r);
    ReplicaEvolves(p, v, r);
    forall t | (v, t) in p.acks ensures GoodAck(p, v, t) && GoodAck(q, v, t) { }
    RoleAfter(p, q, v, r);
    ReplicaAfter(p, q, v, r);
    forall t | t in q.reigns ensures NothingNewBelow(p, q, t) { NothingNew(p, q, t); }
    StepKeeps(p, q, v);
  }

  lemma NothingNew(p: Proto, q: Proto, t: nat)
    requires p.reigns == q.reigns
    ensures NothingNewBelow(p, q, t)
  {
    assert forall t': nat, i: nat :: OwnEntry(q, t', i) ==> OwnEntry(p, t', i);
  }

  /** A replica adopts a higher term, forgetting its vote and stepping down. */
  function Raise(p: Proto, v: Id, t: nat): Proto
    requires v in p.voters
  {
    WithReplica(p, v, p.replicas[v].(term := t, votedFor := 0, role := Follower, readReady := false))
  }

  lemma RaiseKeeps(p: Proto, v: Id, t: nat)
    requires Inv(p) && v in p.voters && p.replicas[v].term < t
    ensures Inv(Raise(p, v, t)) && Evolves(p, Raise(p, v, t))
  {
    var o := p.replicas[v];
    assert GoodReplica(p, v, o);
    forall t' | (v, t') in p.acks ensures t' < t { assert GoodAck(p, v, t'); }
    forall t' | (v, t') in p.ballots ensures t' < t { assert GoodBallot(p, v, t'); }
    SanctionedAfter(p, p, o.log, o.commit, o.term, t);
    ReplicaStep(p, v, o.(term := t, votedFor := 0, role := Follower, readReady := false));
  }

  /** Only volatile fields change, to values the new role allows. */
  lemma VolatileKeeps(p: Proto, v: Id, r: Replica)
    requires Inv(p) && v in p.voters
    requires var o := p.replicas[v]; r.term == o.term && r.votedFor == o.votedFor && r.log == o.log && r.commit == o.commit
    requires GoodRole(p, v, r)
    ensures Inv(WithReplica(p, v, r)) && Evolves(p, WithReplica(p, v, r))
  {
    assert GoodReplica(p, v, p.replicas[v]);
    ReplicaStep(p, v, r);
  }

  // ----- Log matching -----

  /** Equal terms at an index mean equal logs up to that index. */
  lemma LogsMatch(reigns: map<nat, Reign>, a: seq<Entry>, b: seq<Entry>, k: nat)
    requires GoodLog(reigns, a) && GoodLog(reigns, b)
    requires k < |a| && k < |b| && a[k].term == b[k].term
    ensures Agree(a, b, k)
  {
    if k > 0 {
      assert SourcedAt(reigns, a, k) && SourcedAt(reigns, b, k);
    }
  }

  /** The log after a matching append: unchanged if the entry is already there, otherwise cut
      after its predecessor and extended. */
  function Spliced(log: seq<Entry>, prev: nat, e: Entry): seq<Entry>
    requires prev < |log|
  {
    if prev + 1 < |log| && log[prev + 1].term == e.term then log else log[..prev + 1] + [e]
  }

  lemma SplicedMatches(reigns: map<nat, Reign>, log: seq<Entry>, prev: nat, source: seq<Entry>)
    requires GoodLog(reigns, log) && GoodLog(reigns, source)
    requires prev < |log| && prev + 1 < |source| && log[prev].term == source[prev].term
    ensures var l := Spliced(log, prev, source[prev + 1]); GoodLog(reigns, l) && Agree(l, source, prev + 1)
  {
    LogsMatch(reigns, log, source, prev);
    if prev + 1 < |log| && log[prev + 1].term == source[prev + 1].term {
      LogsMatch(reigns, log, source, prev + 1);
    } else {
      PrefixIsGood(reigns, source, Spliced(log, prev, source[prev + 1]));
    }
  }

  lemma PrefixIsGood(reigns: map<nat, Reign>, source: seq<Entry>, log: seq<Entry>)
    requires GoodLog(reigns, source) && 0 < |log| && Agree(log, source, |log| - 1)
    ensures GoodLog(reigns, log)
  {
    forall i | 0 < i < |log|
      ensures SourcedAt(reigns, log, i)
    {
      assert log[i] == source[i] && SourcedAt(reigns, source, i);
    }
    forall i, j | 0 <= i <= j < |log| ensures log[i].term <= log[j].term {
      assert log[i] == source[i] && log[j] == source[j];
    }
  }

  /** Splicing never drops an entry on which the log already agreed with the source. */
  lemma SplicedKeeps(log: seq<Entry>, prev: nat, source: seq<Entry>, other: seq<Entry>, k: nat)
    requires prev < |log| && prev + 1 < |source| && Agree(log, source, prev)
    requires Agree(log, other, k) && Agree(source, other, k)
    ensures Agree(Spliced(log, prev, source[prev + 1]), other, k)
  {
    if prev + 1 <= k {
      assert log[prev + 1] == other[prev + 1] == source[prev + 1];
    }
  }

  // ----- Following the leader -----

  /** A committable entry is in the log of the leader of every term that is not earlier. */
  lemma LeaderHolds(p: Proto, t: nat, i: nat, t': nat)
    requires OwnEntry(p, t, i) && Choosable(p, t, i)
    requires t <= t' && t' in p.reigns && HoldsEarlier(p, t', p.reigns[t'].log)
    ensures Agree(p.reigns[t'].log, p.reigns[t].log, i)
  {
  }

  /** A committed index of any log is in the log of the leader of every term that is not earlier. */
  lemma SanctionedHeld(p: Proto, log: seq<Entry>, k: nat, limit: nat, t: nat)
    requires Inv(p) && Sanctioned(p, log, k, limit) && k != 0 && limit <= t && t in p.reigns
    ensures Agree(p.reigns[t].log, log, k)
  {
    var s: nat :| s in p.reigns && s <= limit && k <= p.reigns[s].commit && Agree(log, p.reigns[s].log, k);
    assert GoodReign(p, s) && GoodReign(p, t);
    var g := p.reigns[s];
    var t': nat, i: nat :| t' <= s && Durable(p, t', i) && g.commit <= i && Agree(g.log, p.reigns[t'].log, g.commit);
    DurableIsChoosable(p, t', i);
    LeaderHolds(p, t', i, t);
  }

  predicate CanFollow(p: Proto, v: Id, m: Packet) {
    && v in p.voters && m in p.packets && m.AppendEntry? && m.hasEntry
    && p.replicas[v].term == m.term && p.replicas[v].role == Follower
    && m.prev < |p.replicas[v].log| && p.replicas[v].log[m.prev].term == m.prevTerm
  }

  function Follow(p: Proto, v: Id, m: Packet): Proto
    requires CanFollow(p, v, m)
  {
    WithReplica(p, v, p.replicas[v].(log := Spliced(p.replicas[v].log, m.prev, m.entry)))
  }

  lemma FollowKeeps(p: Proto, v: Id, m: Packet)
    requires Inv(p) && CanFollow(p, v, m)
    ensures Inv(Follow(p, v, m)) && Evolves(p, Follow(p, v, m))
    ensures m.term in p.reigns && Agree(Follow(p, v, m).replicas[v].log, p.reigns[m.term].log, m.prev + 1)
    ensures Agree(Follow(p, v, m).replicas[v].log, p.replicas[v].log, p.replicas[v].commit)
  {
    var o := p.replicas[v];
    assert GoodPacket(p, m) && GoodReign(p, m.term) && GoodReplica(p, v, o);
    LogsMatch(p.reigns, o.log, p.reigns[m.term].log, m.prev);
    SplicedMatches(p.reigns, o.log, m.prev, p.reigns[m.term].log);
    FollowPromises(p, v, m.prev, m.term);
    CommitSurvives(p, v, m.prev, m.term);
    ReplicaStep(p, v, o.(log := Spliced(o.log, m.prev, m.entry)));
  }

  lemma FollowPromises(p: Proto, v: Id, prev: nat, t: nat)
    requires Inv(p) && v in p.voters && t in p.reigns && p.replicas[v].term == t
    requires prev + 1 < |p.reigns[t].log| && Agree(p.replicas[v].log, p.reigns[t].log, prev)
    ensures var log := Spliced(p.replicas[v].log, prev, p.reigns[t].log[prev + 1]);
      KeepsPromises(p, v, t, log) && TermsUpTo(log, t)
  {
    var o, source := p.replicas[v], p.reigns[t].log;
    assert GoodReign(p, t) && GoodReplica(p, v, o);
    forall t': nat, i: nat | OwnEntry(p, t', i) && Acked(p, v, t', i) && Choosable(p, t', i)
      ensures Agree(Spliced(o.log, prev, source[prev + 1]), p.reigns[t'].log, i)
    {
      assert GoodAck(p, v, t');
      LeaderHolds(p, t', i, t);
      SplicedKeeps(o.log, prev, source, p.reigns[t'].log, i);
    }
    if (v, t) in p.acks {
      SplicedKeeps(o.log, prev, source, source, p.acks[(v, t)]);
    }
  }

  /** Splicing from the current leader's log never touches the committed prefix. */
  lemma CommitSurvives(p: Proto, v: Id, prev: nat, t: nat)
    requires Inv(p) && v in p.voters && t in p.reigns && p.replicas[v].term == t
    requires prev + 1 < |p.reigns[t].log| && Agree(p.replicas[v].log, p.reigns[t].log, prev)
    ensures var o := p.replicas[v]; var log := Spliced(o.log, prev, p.reigns[t].log[prev + 1]);
      Agree(log, o.log, o.commit) && Sanctioned(p, log, o.commit, o.term)
  {
    var o := p.replicas[v];
    assert GoodReplica(p, v, o);
    if o.commit != 0 {
      SanctionedHeld(p, o.log, o.commit, o.term, t);
      SplicedKeeps(o.log, prev, p.reigns[t].log, o.log, o.commit);
    }
  }

  /** A follower whose log agrees with the leader's up to `k` adopts `k` as its commit index,
      provided the leader has announced at least that much. */
  lemma FollowCommitKeeps(p: Proto, v: Id, k: nat)
    requires Inv(p) && v in p.voters && p.replicas[v].role == Follower && p.replicas[v].term in p.reigns
    requires p.replicas[v].commit <= k <= p.reigns[p.replicas[v].term].commit
    requires Agree(p.replicas[v].log, p.reigns[p.replicas[v].term].log, k)
    ensures var q := WithReplica(p, v, p.replicas[v].(commit := k)); Inv(q) && Evolves(p, q)
  {
    assert GoodReplica(p, v, p.replicas[v]);
    ReplicaStep(p, v, p.replicas[v].(commit := k));
  }

  // ----- Steps that extend history -----

  lemma OnlyVoters(p: Proto)
    requires Inv(p)
    ensures forall v, t :: (v, t) in p.acks || (v, t) in p.ballots ==> v in p.voters
  {
    forall v, t | (v, t) in p.acks ensures v in p.voters { assert GoodAck(p, v, t); }
    forall v, t | (v, t) in p.ballots ensures v in p.voters { assert GoodBallot(p, v, t); }
  }

  function Send(p: Proto, m: Packet): Proto {
    p.(packets := p.packets + {m})
  }

  lemma SendKeeps(p: Proto, m: Packet)
    requires Inv(p) && GoodPacket(p, m)
    ensures Inv(Send(p, m)) && Evolves(p, Send(p, m))
  {
    var q := Send(p, m);
    assert Evolves(p, q);
    PacketAfter(p, q, m);
    OnlyVoters(p);
    forall t | t in q.reigns ensures NothingNewBelow(p, q, t) { NothingNew(p, q, t); }
    StepKeeps(p, q, 0);
  }

  /** A replica durably acknowledges that its log agrees with its leader's up to `k`. */
  function Acknowledge(p: Proto, v: Id, k: nat): Proto
    requires v in p.voters
  {
    var t := p.replicas[v].term;
    p.(acks := p.acks[(v, t) := if (v, t) in p.acks && p.acks[(v, t)] > k then p.acks[(v, t)] else k])
  }

  lemma AcknowledgeKeeps(p: Proto, v: Id, k: nat)
    requires Inv(p) && v in p.voters && p.replicas[v].term in p.reigns
    requires Agree(p.replicas[v].log, p.reigns[p.replicas[v].term].log, k)
    ensures var q := Acknowledge(p, v, k); Inv(q) && Evolves(p, q) && Acked(q, v, p.replicas[v].term, k)
  {
    var q, r := Acknowledge(p, v, k), p.replicas[v];
    assert GoodReplica(p, v, r) && GoodReign(p, r.term);
    AcknowledgeEvolves(p, v, k);
    forall t | (v, t) in p.acks ensures GoodAck(p, v, t) { }
    AcknowledgeReplica(p, v, k);
    forall t | t in q.reigns ensures NothingNewBelow(p, q, t) { NothingNew(p, q, t); }
    StepKeeps(p, q, v);
  }

  lemma AcknowledgeEvolves(p: Proto, v: Id, k: nat)
    requires v in p.voters
    ensures var q := Acknowledge(p, v, k); Evolves(p, q) && Elsewhere(p, q, v)
  {
  }

  lemma AcknowledgeReplica(p: Proto, v: Id, k: nat)
    requires v in p.voters && p.replicas[v].term in p.reigns && GoodReplica(p, v, p.replicas[v])
    requires Agree(p.replicas[v].log, p.reigns[p.replicas[v].term].log, k)
    requires Evolves(p, Acknowledge(p, v, k))
    ensures GoodReplica(Acknowledge(p, v, k), v, p.replicas[v])
  {
    var q, r := Acknowledge(p, v, k), p.replicas[v];
    AcknowledgePromises(p, v, k);
    RoleAfter(p, q, v, r);
    GoodLogAfter(p, q, r.log);
    SanctionedAfter(p, q, r.log, r.commit, r.term, r.term);
  }

  lemma AcknowledgePromises(p: Proto, v: Id, k: nat)
    requires v in p.voters && p.replicas[v].term in p.reigns
    requires KeepsPromises(p, v, p.replicas[v].term, p.replicas[v].log)
    requires Agree(p.replicas[v].log, p.reigns[p.replicas[v].term].log, k)
    requires Evolves(p, Acknowledge(p, v, k))
    ensures KeepsPromises(Acknowledge(p, v, k), v, p.replicas[v].term, p.replicas[v].log)
  {
    var q, r := Acknowledge(p, v, k), p.replicas[v];
    forall t: nat, i: nat | OwnEntry(q, t, i) && Acked(q, v, t, i) && Choosable(q, t, i)
      ensures Agree(r.log, q.reigns[t].log, i)
    {
      ChoosableBefore(p, q, t, i);
      assert OwnEntry(p, t, i);
      if t != r.term { assert Acked(p, v, t, i); }
    }
  }

  // ----- Voting -----

  /** `v` durably votes for `c` in its current term. */
  function CastVote(p: Proto, v: Id, c: Id): Proto
    requires v in p.voters
  {
    var r := p.replicas[v];
    p.(ballots := p.ballots[(v, r.term) := Ballot(c, r.log)],
       replicas := p.replicas[v := r.(votedFor := c, role := if v == c then Candidate else r.role, votes := {v})])
  }

  /** The voter has not voted in this term, and the candidate has asked with a log at least as
      up to date as the voter's; a candidate may always vote for itself in a new term. */
  predicate CanVote(p: Proto, v: Id, c: Id) {
    && v in p.voters && c in p.voters && 0 < p.replicas[v].term
    && p.replicas[v].votedFor == 0 && p.replicas[v].role == Follower
    && (if v == c then TermsUpTo(p.replicas[v].log, p.replicas[v].term - 1) && !(p.replicas[v].term in p.reigns && p.reigns[p.replicas[v].term].leader == v)
        else
          var t := p.replicas[v].term;
          && (c, t) in p.ballots && p.ballots[(c, t)].candidate == c
          && 0 < |p.ballots[(c, t)].log| && 0 < |p.replicas[v].log|
          && UpToDate(|p.ballots[(c, t)].log| - 1, LastTerm(p.ballots[(c, t)].log), p.replicas[v].log))
  }

  lemma CastVoteKeeps(p: Proto, v: Id, c: Id)
    requires Inv(p) && CanVote(p, v, c)
    ensures Inv(CastVote(p, v, c)) && Evolves(p, CastVote(p, v, c))
  {
    var q, r := CastVote(p, v, c), p.replicas[v];
    assert GoodReplica(p, v, r);
    CastVoteEvolves(p, v, c);
    forall t | (v, t) in p.acks ensures GoodAck(p, v, t) && GoodAck(q, v, t) { }
    CastVoteBallot(p, v, c);
    CastVoteReplica(p, v, c);
    forall t | t in q.reigns ensures NothingNewBelow(p, q, t) { NothingNew(p, q, t); }
    StepKeeps(p, q, v);
  }

  lemma CastVoteEvolves(p: Proto, v: Id, c: Id)
    requires v in p.voters && (v, p.replicas[v].term) !in p.ballots
    ensures var q := CastVote(p, v, c); Evolves(p, q) && Elsewhere(p, q, v)
  {
  }

  lemma CastVoteReplica(p: Proto, v: Id, c: Id)
    requires Inv(p) && CanVote(p, v, c) && Evolves(p, CastVote(p, v, c))
    ensures GoodReplica(CastVote(p, v, c), v, CastVote(p, v, c).replicas[v])
  {
    var q, r := CastVote(p, v, c), p.replicas[v];
    assert GoodReplica(p, v, r);
    GoodLogAfter(p, q, r.log);
    SanctionedAfter(p, q, r.log, r.commit, r.term, r.term);
    forall t | (v, t) in p.acks ensures GoodAck(p, v, t) { }
    PromisesAfter(p, q, v, r.term, r.log);
  }

  lemma CastVoteBallot(p: Proto, v: Id, c: Id)
    requires Inv(p) && CanVote(p, v, c) && Evolves(p, CastVote(p, v, c))
    ensures GoodBallot(CastVote(p, v, c), v, p.replicas[v].term)
  {
    var q, r, t := CastVote(p, v, c), p.replicas[v], p.replicas[v].term;
    assert GoodReplica(p, v, r);
    GoodLogAfter(p, q, r.log);
    if v != c { assert GoodBallot(p, c, t); }
    assert TermsUpTo(r.log, t - 1);
    forall t | (v, t) in p.acks ensures GoodAck(p, v, t) { }
    PromisesAfter(p, q, v, r.term, r.log);
  }

  // ----- Election -----

  /** The candidate `v` takes office. */
  function Elect(p: Proto, v: Id): Proto
    requires v in p.voters && 0 < |p.replicas[v].log|
  {
    var r := p.replicas[v];
    p.(reigns := p.reigns[r.term := Reign(v, r.log, r.commit)],
       acks := p.acks[(v, r.term) := |r.log| - 1],
       replicas := p.replicas[v := r.(role := Leader, matched := map[])])
  }

  predicate CanElect(p: Proto, v: Id) {
    && v in p.voters && p.replicas[v].role == Candidate && IsQuorum(p.voters, p.replicas[v].votes)
    && 0 < |p.replicas[v].log|
  }

  /** Two majorities of one term would share a voter, so a term has one leader at most. */
  lemma TermIsFree(p: Proto, v: Id)
    requires Inv(p) && CanElect(p, v)
    ensures p.replicas[v].term !in p.reigns
    ensures forall i: nat :: i < |p.replicas[v].log| ==> p.replicas[v].log[i].term < p.replicas[v].term
  {
    var r := p.replicas[v];
    assert GoodReplica(p, v, r);
    assert GoodBallot(p, v, r.term);
    if r.term in p.reigns {
      assert GoodReign(p, r.term);
      var w := QuorumsMeet(p.voters, r.votes, VotersFor(p, r.term, p.reigns[r.term].leader));
    }
  }

  /** A voter of the new leader held every committable entry it acknowledged, and the new
      leader's log was at least as up to date; so the new leader holds it too. */
  lemma WinnerHolds(p: Proto, v: Id, t: nat, i: nat)
    requires Inv(p) && CanElect(p, v) && t < p.replicas[v].term && OwnEntry(p, t, i) && Choosable(p, t, i)
    ensures Agree(p.replicas[v].log, p.reigns[t].log, i)
  {
    var r := p.replicas[v];
    assert GoodReplica(p, v, r);
    var w := QuorumsMeet(p.voters, r.votes, Potential(p, t, i));
    assert GoodBallot(p, w, r.term) && GoodBallot(p, v, r.term) && GoodReign(p, t);
    assert Acked(p, w, t, i);
    var b := p.ballots[(w, r.term)].log;
    assert Agree(b, p.reigns[t].log, i);
    MoreUpToDate(p, r.log, b, t, i);
  }

  lemma MoreUpToDate(p: Proto, a: seq<Entry>, b: seq<Entry>, t: nat, i: nat)
    requires Inv(p) && GoodLog(p.reigns, a) && GoodLog(p.reigns, b)
    requires UpToDate(|a| - 1, LastTerm(a), b)
    requires OwnEntry(p, t, i) && Choosable(p, t, i) && Agree(b, p.reigns[t].log, i)
    ensures Agree(a, p.reigns[t].log, i)
  {
    var s := LastTerm(a);
    assert GoodReign(p, t);
    assert b[i].term == t && t <= LastTerm(b);
    assert SourcedAt(p.reigns, a, |a| - 1);
    if s == LastTerm(b) {
      assert SourcedAt(p.reigns, b, |b| - 1);
    } else {
      assert GoodReign(p, s);
      LeaderHolds(p, t, i, s);
      assert forall j :: 0 <= j <= i ==> p.reigns[s].log[j].term <= t;
    }
  }

  lemma ElectEvolves(p: Proto, v: Id)
    requires v in p.voters && 0 < |p.replicas[v].log|
    requires p.replicas[v].term !in p.reigns && (v, p.replicas[v].term) !in p.acks
    ensures var q := Elect(p, v); Evolves(p, q)
  {
  }

  lemma ElectElsewhere(p: Proto, v: Id)
    requires v in p.voters && 0 < |p.replicas[v].log|
    requires p.replicas[v].term !in p.reigns && (v, p.replicas[v].term) !in p.acks
    ensures var q := Elect(p, v); Elsewhere(p, q, v)
  {
  }

  lemma ElectAcks(p: Proto, v: Id)
    requires Inv(p) && CanElect(p, v)
    ensures OwnAcks(p, Elect(p, v), v) && Evolves(p, Elect(p, v)) && Elsewhere(p, Elect(p, v), v)
  {
    TermIsFree(p, v);
    forall t | (v, t) in p.acks ensures GoodAck(p, v, t) { }
    ElectEvolves(p, v);
    ElectElsewhere(p, v);
  }

  /** An election creates no entry of its own term. */
  lemma ElectOwns(p: Proto, v: Id, t: nat, i: nat)
    requires Inv(p) && CanElect(p, v) && OwnEntry(Elect(p, v), t, i)
    ensures OwnEntry(p, t, i) && t != p.replicas[v].term
  {
    TermIsFree(p, v);
  }

  lemma ElectReign(p: Proto, v: Id)
    requires Inv(p) && CanElect(p, v) && Evolves(p, Elect(p, v))
    ensures GoodReign(Elect(p, v), p.replicas[v].term)
  {
    var q, r, t := Elect(p, v), p.replicas[v], p.replicas[v].term;
    assert GoodReplica(p, v, r);
    TermIsFree(p, v);
    assert GoodBallot(p, v, t);
    VotersForAfter(p, q, t, v);
    QuorumGrows(p.voters, r.votes, VotersFor(q, t, v));
    GoodLogAfter(p, q, r.log);
    forall t': nat, i: nat | t' < t && OwnEntry(q, t', i) && Choosable(q, t', i)
      ensures Agree(r.log, q.reigns[t'].log, i)
    {
      ElectOwns(p, v, t', i);
      ChoosableBefore(p, q, t', i);
      WinnerHolds(p, v, t', i);
    }
    SanctionedBacked(p, r.log, r.commit, t);
    BackedAfter(p, q, t, r.log, r.commit);
  }

  lemma SanctionedBacked(p: Proto, log: seq<Entry>, k: nat, t: nat)
    requires Inv(p) && Sanctioned(p, log, k, t)
    ensures Backed(p, t, log, k)
  {
    if k != 0 {
      var s: nat :| s in p.reigns && s <= t && k <= p.reigns[s].commit && Agree(log, p.reigns[s].log, k);
      assert GoodReign(p, s);
      var g := p.reigns[s];
      var t': nat, i: nat :| t' <= s && Durable(p, t', i) && g.commit <= i && Agree(g.log, p.reigns[t'].log, g.commit);
      assert t' <= t && Durable(p, t', i) && k <= i && Agree(log, p.reigns[t'].log, k);
    }
  }

  lemma ElectReplica(p: Proto, v: Id)
    requires Inv(p) && CanElect(p, v) && Evolves(p, Elect(p, v))
    ensures GoodReplica(Elect(p, v), v, Elect(p, v).replicas[v])
  {
    var q, r, t := Elect(p, v), p.replicas[v], p.replicas[v].term;
    assert GoodReplica(p, v, r);
    TermIsFree(p, v);
    GoodLogAfter(p, q, r.log);
    SanctionedAfter(p, q, r.log, r.commit, t, t);
    forall t', c | (t', c) in p.barriers ensures t' in p.reigns { assert GoodBarrier(p, t', c); }
    forall t': nat, i: nat | OwnEntry(q, t', i) && Acked(q, v, t', i) && Choosable(q, t', i)
      ensures Agree(r.log, q.reigns[t'].log, i)
    {
      ElectOwns(p, v, t', i);
      ChoosableBefore(p, q, t', i);
      assert Acked(p, v, t', i);
    }
  }

  lemma ElectKeeps(p: Proto, v: Id)
    requires Inv(p) && CanElect(p, v)
    ensures Inv(Elect(p, v)) && Evolves(p, Elect(p, v))
  {
    var q := Elect(p, v);
    ElectAcks(p, v);
    ElectReign(p, v);
    ElectReplica(p, v);
    forall t | t in q.reigns && t != p.replicas[v].term ensures NothingNewBelow(p, q, t) {
      forall t': nat, i: nat | t' < t && OwnEntry(q, t', i) ensures OwnEntry(p, t', i) { ElectOwns(p, v, t', i); }
    }
    StepKeeps(p, q, v);
  }

  // ----- Leading -----

  /** The leader appends one entry of its own term and makes it durable. */
  function Lead(p: Proto, v: Id, e: Entry): Proto
    requires v in p.voters && p.replicas[v].term in p.reigns
  {
    var r, t := p.replicas[v], p.replicas[v].term;
    var log := r.log + [e];
    p.(reigns := p.reigns[t := p.reigns[t].(log := log)],
       acks := p.acks[(v, t) := |log| - 1],
       replicas := p.replicas[v := r.(log := log)])
  }

  predicate CanLead(p: Proto, v: Id, e: Entry) {
    v in p.voters && p.replicas[v].role == Leader && e.term == p.replicas[v].term
  }

  lemma LeadEvolves(p: Proto, v: Id, e: Entry)
    requires v in p.voters && p.replicas[v].term in p.reigns && p.reigns[p.replicas[v].term].leader == v
    requires p.replicas[v].log == p.reigns[p.replicas[v].term].log
    requires (v, p.replicas[v].term) in p.acks && p.acks[(v, p.replicas[v].term)] == |p.replicas[v].log| - 1
    ensures var q := Lead(p, v, e); Evolves(p, q)
  {
  }

  lemma LeadElsewhere(p: Proto, v: Id, e: Entry)
    requires v in p.voters && p.replicas[v].term in p.reigns && p.reigns[p.replicas[v].term].leader == v
    requires p.replicas[v].log == p.reigns[p.replicas[v].term].log
    requires (v, p.replicas[v].term) in p.acks && p.acks[(v, p.replicas[v].term)] == |p.replicas[v].log| - 1
    ensures var q := Lead(p, v, e); Elsewhere(p, q, v)
  {
  }

  lemma LeadAcks(p: Proto, v: Id, e: Entry)
    requires Inv(p) && CanLead(p, v, e)
    ensures p.replicas[v].term in p.reigns
    ensures var q := Lead(p, v, e); Evolves(p, q) && Elsewhere(p, q, v) && OwnAcks(p, q, v)
  {
    hide Evolves, Elsewhere;
    assert GoodReplica(p, v, p.replicas[v]);
    assert GoodReign(p, p.replicas[v].term);
    forall t | (v, t) in p.acks ensures GoodAck(p, v, t) { }
    LeadEvolves(p, v, e);
    LeadElsewhere(p, v, e);
  }

  /** The fresh entry cannot be committed once a later leader has been elected: the voters of
      that leader have all left the term without acknowledging it. */
  lemma FreshEntryIsHarmless(p: Proto, v: Id, e: Entry, t': nat)
    requires Inv(p) && CanLead(p, v, e) && t' in p.reigns && p.replicas[v].term < t' && p.replicas[v].term in p.reigns
    ensures !Choosable(Lead(p, v, e), p.replicas[v].term, |p.replicas[v].log|)
  {
    var q, r, t := Lead(p, v, e), p.replicas[v], p.replicas[v].term;
    assert GoodReplica(p, v, r) && GoodReign(p, t) && GoodReign(p, t');
    var later := VotersFor(p, t', p.reigns[t'].leader);
    forall w | w in later ensures w !in Potential(q, t, |r.log|) {
      assert GoodBallot(p, w, t');
      if (w, t) in p.acks { assert GoodAck(p, w, t); }
      assert !Acked(q, w, t, |r.log|);
    }
    if Choosable(q, t, |r.log|) {
      var w := QuorumsMeet(p.voters, Potential(q, t, |r.log|), later);
      assert false;
    }
  }

  lemma LeadOwns(p: Proto, v: Id, e: Entry, t: nat, i: nat)
    requires Inv(p) && CanLead(p, v, e) && p.replicas[v].term in p.reigns && OwnEntry(Lead(p, v, e), t, i)
    ensures OwnEntry(p, t, i) || (t == p.replicas[v].term && i == |p.replicas[v].log|)
  {
    assert GoodReplica(p, v, p.replicas[v]);
  }

  lemma LeadNothingNew(p: Proto, v: Id, e: Entry, t: nat)
    requires Inv(p) && CanLead(p, v, e) && p.replicas[v].term in p.reigns && t in p.reigns
    ensures NothingNewBelow(p, Lead(p, v, e), t)
  {
    var q := Lead(p, v, e);
    forall t': nat, i: nat | t' < t && OwnEntry(q, t', i) ensures OwnEntry(p, t', i) || !Choosable(q, t', i) {
      LeadOwns(p, v, e, t', i);
      if !OwnEntry(p, t', i) { FreshEntryIsHarmless(p, v, e, t); }
    }
  }

  lemma LeadLog(p: Proto, v: Id, e: Entry)
    requires Inv(p) && CanLead(p, v, e) && p.replicas[v].term in p.reigns && Evolves(p, Lead(p, v, e))
    ensures var log := p.replicas[v].log + [e];
      GoodLog(Lead(p, v, e).reigns, log) && TermsUpTo(log, e.term)
  {
    var q, r := Lead(p, v, e), p.replicas[v];
    assert GoodReplica(p, v, r) && GoodReign(p, r.term);
    GoodLogAfter(p, q, r.log);
    LongerIsGood(q.reigns, r.log, e);
  }

  lemma LongerIsGood(reigns: map<nat, Reign>, log: seq<Entry>, e: Entry)
    requires GoodLog(reigns, log) && TermsUpTo(log, e.term)
    requires 0 < e.term && e.term in reigns && reigns[e.term].log == log + [e]
    ensures GoodLog(reigns, log + [e]) && TermsUpTo(log + [e], e.term)
  {
    var longer := log + [e];
    forall i | 0 < i < |longer| ensures SourcedAt(reigns, longer, i) {
      if i < |log| { assert SourcedAt(reigns, log, i); }
    }
  }

  lemma LeadReign(p: Proto, v: Id, e: Entry)
    requires Inv(p) && CanLead(p, v, e) && p.replicas[v].term in p.reigns && Evolves(p, Lead(p, v, e))
    ensures GoodReign(Lead(p, v, e), p.replicas[v].term)
  {
    var q, r, t := Lead(p, v, e), p.replicas[v], p.replicas[v].term;
    var g := p.reigns[t];
    assert GoodReplica(p, v, r) && GoodReign(p, t);
    LeadLog(p, v, e);
    VotersForAfter(p, q, t, v);
    QuorumGrows(p.voters, VotersFor(p, t, v), VotersFor(q, t, v));
    LeadNothingNew(p, v, e, t);
    HoldsEarlierAfter(p, q, t, g.log);
    BackedAfter(p, q, t, g.log, g.commit);
    HoldsLonger(q, t, g.log, g.log + [e], g.commit);
  }

  lemma HoldsLonger(p: Proto, t: nat, log: seq<Entry>, longer: seq<Entry>, k: nat)
    requires HoldsEarlier(p, t, log) && Backed(p, t, log, k) && log <= longer
    ensures HoldsEarlier(p, t, longer) && Backed(p, t, longer, k)
  {
    if k != 0 {
      var t': nat, i: nat :| t' <= t && Durable(p, t', i) && k <= i && Agree(log, p.reigns[t'].log, k);
      assert Agree(longer, p.reigns[t'].log, k);
    }
  }

  lemma LeadPromises(p: Proto, v: Id, e: Entry)
    requires Inv(p) && CanLead(p, v, e) && p.replicas[v].term in p.reigns && Evolves(p, Lead(p, v, e))
    ensures KeepsPromises(Lead(p, v, e), v, e.term, p.replicas[v].log + [e])
  {
    var q, r := Lead(p, v, e), p.replicas[v];
    assert GoodReplica(p, v, r);
    forall t': nat, i: nat | OwnEntry(q, t', i) && Acked(q, v, t', i) && Choosable(q, t', i)
      ensures Agree(r.log + [e], q.reigns[t'].log, i)
    {
      LeadOwns(p, v, e, t', i);
      if t' != e.term {
        ChoosableBefore(p, q, t', i);
        assert Acked(p, v, t', i);
      }
    }
  }

  lemma LeadReplica(p: Proto, v: Id, e: Entry)
    requires Inv(p) && CanLead(p, v, e) && p.replicas[v].term in p.reigns && Evolves(p, Lead(p, v, e))
    ensures GoodReplica(Lead(p, v, e), v, Lead(p, v, e).replicas[v])
  {
    var q, r, t := Lead(p, v, e), p.replicas[v], p.replicas[v].term;
    assert GoodReplica(p, v, r);
    LeadLog(p, v, e);
    LeadPromises(p, v, e);
    SanctionedAfter(p, q, r.log, r.commit, t, t);
    SanctionedLonger(q, r.log, r.log + [e], r.commit, t);
    assert forall w :: w in r.matched && Acked(p, w, t, r.matched[w]) ==> Acked(q, w, t, r.matched[w]);
  }

  lemma SanctionedLonger(p: Proto, log: seq<Entry>, longer: seq<Entry>, k: nat, t: nat)
    requires Sanctioned(p, log, k, t) && log <= longer
    ensures Sanctioned(p, longer, k, t)
  {
  }

  lemma LeadKeeps(p: Proto, v: Id, e: Entry)
    requires Inv(p) && CanLead(p, v, e)
    ensures p.replicas[v].term in p.reigns
    ensures Inv(Lead(p, v, e)) && Evolves(p, Lead(p, v, e))
  {
    var t := p.replicas[v].term;
    LeadAcks(p, v, e);
    var q := Lead(p, v, e);
    LeadReign(p, v, e);
    LeadReplica(p, v, e);
    forall t' | t' in q.reigns && t' != t ensures NothingNewBelow(p, q, t') { LeadNothingNew(p, v, e, t'); }
    StepKeeps(p, q, v);
  }

  /** The leader commits an entry of its own term that a majority has acknowledged. */
  function LeadCommit(p: Proto, v: Id, i: nat): Proto
    requires v in p.voters && p.replicas[v].term in p.reigns
  {
    var r, t := p.replicas[v], p.replicas[v].term;
    p.(reigns := p.reigns[t := p.reigns[t].(commit := i)],
       replicas := p.replicas[v := r.(commit := i)])
  }

  predicate CanLeadCommit(p: Proto, v: Id, i: nat) {
    && v in p.voters && p.replicas[v].role == Leader
    && p.replicas[v].commit <= i < |p.replicas[v].log| && p.replicas[v].log[i].term == p.replicas[v].term
    && IsQuorum(p.voters, Ackers(p, p.replicas[v].term, i))
  }

  lemma LeadCommitEvolves(p: Proto, v: Id, i: nat)
    requires v in p.voters && p.replicas[v].term in p.reigns && p.reigns[p.replicas[v].term].commit <= i
    requires p.replicas[v].commit <= i
    requires p.reigns[p.replicas[v].term].leader == v
    ensures var q := LeadCommit(p, v, i); Evolves(p, q) && Elsewhere(p, q, v)
  {
  }

  lemma LeadCommitReign(p: Proto, v: Id, i: nat)
    requires Inv(p) && CanLeadCommit(p, v, i) && p.replicas[v].term in p.reigns && Evolves(p, LeadCommit(p, v, i))
    ensures GoodReign(LeadCommit(p, v, i), p.replicas[v].term)
    ensures GoodReplica(LeadCommit(p, v, i), v, LeadCommit(p, v, i).replicas[v])
  {
    var q, r, t := LeadCommit(p, v, i), p.replicas[v], p.replicas[v].term;
    assert GoodReplica(p, v, r) && GoodReign(p, t);
    GoodLogAfter(p, q, r.log);
    VotersForAfter(p, q, t, v);
    QuorumGrows(p.voters, VotersFor(p, t, v), VotersFor(q, t, v));
    LeadCommitOwns(p, v, i, t);
    HoldsEarlierAfter(p, q, t, r.log);
    DurableAfter(p, q, t, i);
    assert Backed(q, t, r.log, i);
    forall t | (v, t) in p.acks ensures GoodAck(p, v, t) { }
    PromisesAfter(p, q, v, t, r.log);
    assert forall w :: w in r.matched && Acked(p, w, t, r.matched[w]) ==> Acked(q, w, t, r.matched[w]);
  }

  lemma LeadCommitOwns(p: Proto, v: Id, i: nat, t: nat)
    requires v in p.voters && p.replicas[v].term in p.reigns
    ensures NothingNewBelow(p, LeadCommit(p, v, i), t)
  {
    var q := LeadCommit(p, v, i);
    forall t': nat, j: nat | OwnEntry(q, t', j) ensures OwnEntry(p, t', j) { }
  }

  lemma LeadCommitKeeps(p: Proto, v: Id, i: nat)
    requires Inv(p) && CanLeadCommit(p, v, i)
    ensures p.replicas[v].term in p.reigns
    ensures Inv(LeadCommit(p, v, i)) && Evolves(p, LeadCommit(p, v, i))
  {
    hide Evolves, Elsewhere;
    var t := p.replicas[v].term;
    assert GoodReplica(p, v, p.replicas[v]);
    var q := LeadCommit(p, v, i);
    LeadCommitEvolves(p, v, i);
    forall t | (v, t) in p.acks ensures GoodAck(p, v, t) && GoodAck(q, v, t) { }
    LeadCommitReign(p, v, i);
    forall t' | t' in q.reigns ensures NothingNewBelow(p, q, t') { LeadCommitOwns(p, v, i, t'); }
    StepKeeps(p, q, v);
  }

  // ----- Read barriers -----

  /** The leader opens a read barrier; a context already used in this term keeps its first record. */
  function StartRead(p: Proto, v: Id, c: nat): Proto
    requires v in p.voters
  {
    var r := p.replicas[v];
    var alone := IsQuorum(p.voters, {v});
    var b := Barrier(r.commit, map w | w in p.voters :: p.replicas[w].commit, map w | w in p.voters :: p.replicas[w].term);
    p.(barriers := if (r.term, c) in p.barriers then p.barriers else p.barriers[(r.term, c) := b],
       replicas := p.replicas[v := r.(readContext := c, readAcks := {v}, readReady := alone,
                                      readIndex := if alone then r.commit else r.readIndex)])
  }

  predicate CanStartRead(p: Proto, v: Id, c: nat) {
    && v in p.voters && p.replicas[v].role == Leader && c != 0 && p.replicas[v].commit < |p.replicas[v].log|
    && (p.replicas[v].log[p.replicas[v].commit].term == p.replicas[v].term || IsQuorum(p.voters, {v}))
  }

  lemma AloneMeansOnly(voters: set<Id>, v: Id, w: Id)
    requires IsQuorum(voters, {v}) && w in voters
    ensures w == v
  {
    assert voters * {v} <= {v};
    SubsetSize(voters * {v}, {v});
    assert |voters - {w}| == |voters| - 1 == 0;
    assert v in voters && v !in voters - {w};
  }

  function AheadNow(p: Proto, t: nat): set<Id> {
    set w | w in p.voters && p.replicas[w].term > t
  }

  /** Whatever any replica has committed is below the leader's commit index, or some later
      leader's voters have already left the term. */
  lemma FloorCovers(p: Proto, v: Id, c: nat, x: Id)
    requires Inv(p) && CanStartRead(p, v, c) && x in p.voters
    ensures p.replicas[x].commit <= p.replicas[v].commit ||
      IsQuorum(p.voters, AheadNow(p, p.replicas[v].term))
  {
    var r, t, k := p.replicas[v], p.replicas[v].term, p.replicas[x].commit;
    assert GoodReplica(p, v, r) && GoodReplica(p, x, p.replicas[x]);
    if k > r.commit {
      if IsQuorum(p.voters, {v}) { AloneMeansOnly(p.voters, v, x); }
      var s: nat :| s in p.reigns && k <= p.reigns[s].commit && Agree(p.replicas[x].log, p.reigns[s].log, k);
      assert GoodReign(p, s) && GoodReign(p, t);
      if s > t {
        LaterVoters(p, s, t);
      } else {
        assert s < t;
        EarlierCommitIsBelow(p, s, t, k);
        assert false;
      }
    }
  }

  lemma LaterVoters(p: Proto, s: nat, t: nat)
    requires Inv(p) && s in p.reigns && t < s
    ensures IsQuorum(p.voters, AheadNow(p, t))
  {
    assert GoodReign(p, s);
    var voters := VotersFor(p, s, p.reigns[s].leader);
    forall w | w in voters ensures p.replicas[w].term > t { assert GoodBallot(p, w, s); }
    QuorumGrows(p.voters, voters, AheadNow(p, t));
  }

  /** What a leader of an earlier term committed precedes every entry of a later term. */
  lemma EarlierCommitIsBelow(p: Proto, s: nat, t: nat, k: nat)
    requires Inv(p) && s in p.reigns && t in p.reigns && s < t && 0 < k <= p.reigns[s].commit
    ensures k < |p.reigns[t].log| && p.reigns[t].log[k].term <= s
    ensures forall j :: 0 <= j < |p.reigns[t].log| && p.reigns[t].log[j].term == t ==> k < j
  {
    var g := p.reigns[s];
    assert GoodReign(p, s) && GoodReign(p, t);
    var t': nat, i: nat :| t' <= s && Durable(p, t', i) && g.commit <= i && Agree(g.log, p.reigns[t'].log, g.commit);
    DurableIsChoosable(p, t', i);
    LeaderHolds(p, t', i, t);
    assert GoodReign(p, t');
    assert p.reigns[t].log[k] == p.reigns[t'].log[k];
  }

  lemma StartReadBarrier(p: Proto, v: Id, c: nat)
    requires Inv(p) && CanStartRead(p, v, c) && (p.replicas[v].term, c) !in p.barriers
    ensures GoodBarrier(StartRead(p, v, c), p.replicas[v].term, c)
  {
    var q, t := StartRead(p, v, c), p.replicas[v].term;
    var b := q.barriers[(t, c)];
    assert GoodReplica(p, v, p.replicas[v]);
    assert AheadAt(q, b, t) == AheadNow(p, t);
    forall x | x in q.voters ensures b.commits[x] <= b.floor || IsQuorum(q.voters, AheadAt(q, b, t)) {
      FloorCovers(p, v, c, x);
    }
  }

  lemma StartReadEvolves(p: Proto, v: Id, c: nat)
    requires v in p.voters && p.replicas[v].term in p.reigns && p.reigns[p.replicas[v].term].leader == v
    ensures var q := StartRead(p, v, c); Evolves(p, q) && Elsewhere(p, q, v)
  {
  }

  lemma StartReadKeeps(p: Proto, v: Id, c: nat)
    requires Inv(p) && CanStartRead(p, v, c)
    ensures Inv(StartRead(p, v, c)) && Evolves(p, StartRead(p, v, c))
  {
    var q, r := StartRead(p, v, c), p.replicas[v];
    assert GoodReplica(p, v, r);
    StartReadEvolves(p, v, c);
    forall t | (v, t) in p.acks ensures GoodAck(p, v, t) && GoodAck(q, v, t) { }
    if (r.term, c) !in p.barriers { StartReadBarrier(p, v, c); } else { assert GoodBarrier(p, r.term, c); BarrierAfter(p, q, r.term, c); }
    StartReadReplica(p, v, c);
    forall t | t in q.reigns ensures NothingNewBelow(p, q, t) { NothingNew(p, q, t); }
    StepKeeps(p, q, v);
  }

  lemma StartReadReplica(p: Proto, v: Id, c: nat)
    requires Inv(p) && CanStartRead(p, v, c) && Evolves(p, StartRead(p, v, c))
    requires GoodBarrier(StartRead(p, v, c), p.replicas[v].term, c)
    ensures GoodReplica(StartRead(p, v, c), v, StartRead(p, v, c).replicas[v])
  {
    var q, r := StartRead(p, v, c), p.replicas[v];
    assert GoodReplica(p, v, r);
    GoodLogAfter(p, q, r.log);
    SanctionedAfter(p, q, r.log, r.commit, r.term, r.term);
    forall t | (v, t) in p.acks ensures GoodAck(p, v, t) { }
    PromisesAfter(p, q, v, r.term, r.log);
    StartReadRole(p, v, c);
  }

  lemma StartReadRole(p: Proto, v: Id, c: nat)
    requires CanStartRead(p, v, c) && GoodLeader(p, v, p.replicas[v])
    requires GoodBarrier(StartRead(p, v, c), p.replicas[v].term, c)
    ensures GoodLeader(StartRead(p, v, c), v, StartRead(p, v, c).replicas[v])
  {
    var q, r := StartRead(p, v, c), p.replicas[v];
    assert forall w :: w in r.matched && Acked(p, w, r.term, r.matched[w]) ==> Acked(q, w, r.term, r.matched[w]);
    if IsQuorum(p.voters, {v}) { BarrierCovered(q, v, r.term, c, {v}); }
  }

  /** Once a majority that had not left the term has answered, the leader's commit index
      covers every commit index held when the barrier started. */
  lemma BarrierCovered(p: Proto, v: Id, t: nat, c: nat, answered: set<Id>)
    requires (t, c) in p.barriers && GoodBarrier(p, t, c) && IsQuorum(p.voters, answered)
    requires forall w :: w in answered && w in p.barriers[(t, c)].terms ==> p.barriers[(t, c)].terms[w] <= t
    ensures forall x :: x in p.barriers[(t, c)].commits ==> p.barriers[(t, c)].commits[x] <= p.reigns[t].commit
  {
    var b := p.barriers[(t, c)];
    if IsQuorum(p.voters, AheadAt(p, b, t)) {
      var w := QuorumsMeet(p.voters, answered, AheadAt(p, b, t));
      assert false;
    }
  }

  /** The leader counts one answer to its barrier, and completes it at a majority. */
  function CountAnswer(p: Proto, v: Id, w: Id): Replica
    requires v in p.voters
  {
    var r := p.replicas[v].(readAcks := p.replicas[v].readAcks + {w});
    if IsQuorum(p.voters, r.readAcks) then r.(readReady := true, readIndex := r.commit) else r
  }

  lemma CountAnswerKeeps(p: Proto, v: Id, m: Packet)
    requires Inv(p) && v in p.voters && p.replicas[v].role == Leader
    requires m in p.packets && m.AppendAck? && m.term == p.replicas[v].term
    requires m.context != 0 && m.context == p.replicas[v].readContext
    ensures var q := WithReplica(p, v, CountAnswer(p, v, m.from)); Inv(q) && Evolves(p, q)
  {
    var r, r' := p.replicas[v], CountAnswer(p, v, m.from);
    assert GoodReplica(p, v, r) && GoodPacket(p, m) && GoodBarrier(p, r.term, r.readContext);
    if IsQuorum(p.voters, r'.readAcks) { BarrierCovered(p, v, r.term, r.readContext, r'.readAcks); }
    VolatileKeeps(p, v, r');
  }
}
