/**
 * The consensus protocol over a fixed voter set, seen through its durable state.
 *
 * A replica's `term`, `votedFor`, `log` and `commit` are what its stable store holds; the
 * remaining fields are volatile.  `packets` is the set of every message ever sent that can
 * influence another replica, so a message may be lost (never acted on), duplicated (acted on
 * twice) or reordered, but not forged.  `ballots`, `reigns`, `acks` and `barriers` are history:
 * they record what happened and never influence what may happen.
 */
module RaftProtocol {
  import opened Quorums
  import opened RaftTypes

  // ----- State -----

  datatype Replica = Replica(term: nat, votedFor: Id, log: seq<Entry>, commit: nat,
                             role: Role, votes: set<Id>, matched: map<Id, nat>,
                             readContext: nat, readAcks: set<Id>, readReady: bool, readIndex: nat)

  datatype Packet =
    | VoteRequest(from: Id, term: nat, lastIndex: nat, lastTerm: nat)
    | VoteGrant(from: Id, to: Id, term: nat)
    | AppendEntry(from: Id, to: Id, term: nat, prev: nat, prevTerm: nat,
                  hasEntry: bool, entry: Entry, commit: nat, context: nat)
    | AppendAck(from: Id, term: nat, index: nat, context: nat)

  /** A vote: who it went to, and the voter's log when it was cast. */
  datatype Ballot = Ballot(candidate: Id, log: seq<Entry>)

  /** What the leader of a term has ever held and committed in that term. */
  datatype Reign = Reign(leader: Id, log: seq<Entry>, commit: nat)

  /** The cluster at the moment a read barrier was first accepted. */
  datatype Barrier = Barrier(floor: nat, commits: map<Id, nat>, terms: map<Id, nat>)

  datatype ProtoState = Proto(voters: set<Id>, replicas: map<Id, Replica>, packets: set<Packet>,
                         ballots: map<(Id, nat), Ballot>, reigns: map<nat, Reign>,
                         acks: map<(Id, nat), nat>, barriers: map<(nat, nat), Barrier>)

  /** Every voter has a replica, and only voters have one. */
  type Proto = p: ProtoState | p.replicas.Keys == p.voters
    witness Proto({}, map[], {}, map[], map[], map[], map[])

  // ----- Logs -----

  /** Both logs reach index `k` and hold the same entries up to it. */
  ghost predicate Agree(a: seq<Entry>, b: seq<Entry>, k: nat) {
    && k < |a| && k < |b|
    && forall j {:trigger a[j]} {:trigger b[j]} :: 0 <= j <= k ==> a[j] == b[j]
  }

  predicate TermsUpTo(log: seq<Entry>, t: nat) {
    forall i :: 0 <= i < |log| ==> log[i].term <= t
  }

  predicate Sorted(log: seq<Entry>) {
    forall i, j :: 0 <= i <= j < |log| ==> log[i].term <= log[j].term
  }

  /** Every entry above the sentinel, with all that precedes it, comes from the log of the
      leader of its term. */
  ghost predicate Sourced(reigns: map<nat, Reign>, log: seq<Entry>) {
    forall i {:trigger SourcedAt(reigns, log, i)} :: 0 < i < |log| ==> SourcedAt(reigns, log, i)
  }

  ghost predicate SourcedAt(reigns: map<nat, Reign>, log: seq<Entry>, i: nat)
    requires i < |log|
  {
    && 0 < log[i].term && log[i].term in reigns
    && Agree(log, reigns[log[i].term].log, i)
  }

  ghost predicate GoodLog(reigns: map<nat, Reign>, log: seq<Entry>) {
    && 0 < |log| && log[0] == ZERO_ENTRY
    && Sorted(log)
    && Sourced(reigns, log)
  }

  function LastTerm(log: seq<Entry>): nat
    requires 0 < |log|
  {
    log[|log| - 1].term
  }

  predicate UpToDate(lastIndex: nat, lastTerm: nat, log: seq<Entry>)
    requires 0 < |log|
  {
    lastTerm > LastTerm(log) || (lastTerm == LastTerm(log) && lastIndex >= |log| - 1)
  }

  // ----- What can still be committed -----

  predicate Acked(p: Proto, v: Id, t: nat, i: nat) {
    (v, t) in p.acks && i <= p.acks[(v, t)]
  }

  function Ackers(p: Proto, t: nat, i: nat): set<Id> {
    set v | v in p.voters && Acked(p, v, t, i)
  }

  /** Voters that have acknowledged entry `i` of term `t`, or still could. */
  function Potential(p: Proto, t: nat, i: nat): set<Id>
  {
    set v | v in p.voters && (p.replicas[v].term <= t || Acked(p, v, t, i))
  }

  predicate Choosable(p: Proto, t: nat, i: nat)
  {
    IsQuorum(p.voters, Potential(p, t, i))
  }

  /** Index `i` of the leader's log of term `t` holds an entry of that very term. */
  predicate OwnEntry(p: Proto, t: nat, i: nat) {
    t in p.reigns && i < |p.reigns[t].log| && p.reigns[t].log[i].term == t
  }

  predicate Durable(p: Proto, t: nat, i: nat) {
    OwnEntry(p, t, i) && IsQuorum(p.voters, Ackers(p, t, i))
  }

  function VotersFor(p: Proto, t: nat, c: Id): set<Id> {
    set v | v in p.voters && (v, t) in p.ballots && p.ballots[(v, t)].candidate == c
  }

  // ----- The invariant, entity by entity -----

  predicate VoteRecorded(p: Proto, v: Id, r: Replica) {
    if r.votedFor == 0 then (v, r.term) !in p.ballots
    else (v, r.term) in p.ballots && p.ballots[(v, r.term)].candidate == r.votedFor
  }

  ghost predicate GoodMatch(p: Proto, t: nat, matched: map<Id, nat>) {
    forall w :: w in matched ==> matched[w] == 0 || Acked(p, w, t, matched[w])
  }

  /** A pending barrier counts only voters that had not left the term when it started, and
      a completed one covers every commit index held at that moment. */
  ghost predicate GoodRead(p: Proto, r: Replica) {
    (r.term, r.readContext) in p.barriers ==>
      var b := p.barriers[(r.term, r.readContext)];
      && (forall w :: w in r.readAcks && w in b.terms ==> b.terms[w] <= r.term)
      && (r.readReady ==> forall x :: x in b.commits ==> b.commits[x] <= r.readIndex)
  }

  ghost predicate GoodLeader(p: Proto, v: Id, r: Replica) {
    && r.term in p.reigns && p.reigns[r.term].leader == v
    && r.log == p.reigns[r.term].log && r.commit == p.reigns[r.term].commit
    && GoodMatch(p, r.term, r.matched)
    && GoodRead(p, r)
    && ((r.term, r.readContext) !in p.barriers ==> !r.readReady)
  }

  ghost predicate GoodCandidate(p: Proto, v: Id, r: Replica) {
    && r.votedFor == v
    && (v, r.term) in p.ballots && p.ballots[(v, r.term)] == Ballot(v, r.log)
    && r.votes <= VotersFor(p, r.term, v)
    && !(r.term in p.reigns && p.reigns[r.term].leader == v)
  }

  ghost predicate GoodRole(p: Proto, v: Id, r: Replica) {
    && (r.role == Leader ==> GoodLeader(p, v, r))
    && (r.role == Candidate ==> GoodCandidate(p, v, r))
    && (r.role != Leader ==> !r.readReady)
  }

  /** `log` has every entry `v` acknowledged in term `t`, and every entry it acknowledged in
      any term that can still be committed. */
  ghost predicate KeepsPromises(p: Proto, v: Id, t: nat, log: seq<Entry>) {
    && ((v, t) in p.acks && t in p.reigns ==> Agree(log, p.reigns[t].log, p.acks[(v, t)]))
    && (forall t': nat, i: nat {:trigger Acked(p, v, t', i)} ::
          OwnEntry(p, t', i) && Acked(p, v, t', i) && Choosable(p, t', i) ==> Agree(log, p.reigns[t'].log, i))
  }

  /** Index `k` of `log` is covered by the commit index of the leader of some term up to `limit`. */
  ghost predicate Sanctioned(p: Proto, log: seq<Entry>, k: nat, limit: nat) {
    k == 0 || exists t: nat :: t in p.reigns && t <= limit && k <= p.reigns[t].commit && Agree(log, p.reigns[t].log, k)
  }

  ghost predicate GoodReplica(p: Proto, v: Id, r: Replica) {
    && r.commit < |r.log| && TermsUpTo(r.log, r.term)
    && GoodLog(p.reigns, r.log)
    && VoteRecorded(p, v, r)
    && GoodRole(p, v, r)
    && KeepsPromises(p, v, r.term, r.log)
    && Sanctioned(p, r.log, r.commit, r.term)
  }

  ghost predicate GoodAck(p: Proto, v: Id, t: nat)
    requires (v, t) in p.acks
  {
    v in p.voters && t in p.reigns && t <= p.replicas[v].term && p.acks[(v, t)] < |p.reigns[t].log|
  }

  /** When the ballot was cast the voter held every still committable entry it had
      acknowledged in an earlier term. */
  ghost predicate BallotKeeps(p: Proto, v: Id, t: nat, log: seq<Entry>) {
    forall t': nat, i: nat {:trigger Acked(p, v, t', i)} ::
      t' < t && OwnEntry(p, t', i) && Acked(p, v, t', i) && Choosable(p, t', i) ==> Agree(log, p.reigns[t'].log, i)
  }

  ghost predicate GoodBallot(p: Proto, v: Id, t: nat)
    requires (v, t) in p.ballots
  {
    var c, log := p.ballots[(v, t)].candidate, p.ballots[(v, t)].log;
    && v in p.voters && c in p.voters && 0 < t <= p.replicas[v].term
    && (c, t) in p.ballots && p.ballots[(c, t)].candidate == c
    && GoodLog(p.reigns, log) && TermsUpTo(log, t - 1)
    && 0 < |p.ballots[(c, t)].log|
    && UpToDate(|p.ballots[(c, t)].log| - 1, LastTerm(p.ballots[(c, t)].log), log)
    && BallotKeeps(p, v, t, log)
  }

  /** Leader completeness: a committable entry of an earlier term is in the log of term `t`. */
  ghost predicate HoldsEarlier(p: Proto, t: nat, log: seq<Entry>) {
    forall t': nat, i: nat {:trigger OwnEntry(p, t', i)} ::
      t' < t && OwnEntry(p, t', i) && Choosable(p, t', i) ==> Agree(log, p.reigns[t'].log, i)
  }

  /** `k` is at most the index of an entry that a leader of a term up to `t` replicated to a
      majority, and `log` agrees with that leader's log up to `k`. */
  ghost predicate Backed(p: Proto, t: nat, log: seq<Entry>, k: nat) {
    k == 0 || exists t': nat, i: nat :: t' <= t && Durable(p, t', i) && k <= i && Agree(log, p.reigns[t'].log, k)
  }

  ghost predicate GoodReign(p: Proto, t: nat)
    requires t in p.reigns
  {
    var g := p.reigns[t];
    && 0 < t && g.leader in p.voters && t <= p.replicas[g.leader].term
    && IsQuorum(p.voters, VotersFor(p, t, g.leader))
    && g.commit < |g.log|
    && (g.leader, t) in p.acks && p.acks[(g.leader, t)] == |g.log| - 1
    && GoodLog(p.reigns, g.log) && TermsUpTo(g.log, t)
    && HoldsEarlier(p, t, g.log)
    && Backed(p, t, g.log, g.commit)
  }

  ghost predicate GoodPacket(p: Proto, m: Packet) {
    match m
    case VoteRequest(c, t, lastIndex, lastTerm) =>
      && (c, t) in p.ballots && p.ballots[(c, t)].candidate == c
      && |p.ballots[(c, t)].log| == lastIndex + 1 && LastTerm(p.ballots[(c, t)].log) == lastTerm
    case VoteGrant(v, c, t) =>
      (v, t) in p.ballots && p.ballots[(v, t)].candidate == c
    case AppendEntry(c, to, t, prev, prevTerm, hasEntry, e, commit, context) =>
      && t in p.reigns && p.reigns[t].leader == c && c != to
      && prev < |p.reigns[t].log| && p.reigns[t].log[prev].term == prevTerm
      && (hasEntry ==> prev + 1 < |p.reigns[t].log| && p.reigns[t].log[prev + 1] == e)
      && commit <= p.reigns[t].commit
      && (context != 0 ==> (t, context) in p.barriers)
    case AppendAck(v, t, k, context) =>
      && v in p.voters && Acked(p, v, t, k)
      && (context != 0 ==>
            && (t, context) in p.barriers
            && (v in p.barriers[(t, context)].terms ==> p.barriers[(t, context)].terms[v] <= t))
  }

  function AheadAt(p: Proto, b: Barrier, t: nat): set<Id> {
    set v | v in p.voters && v in b.terms && b.terms[v] > t
  }

  /** Every commit index seen when the barrier started is covered by its floor, unless a
      majority had already left the leader's term. */
  ghost predicate GoodBarrier(p: Proto, t: nat, context: nat)
    requires (t, context) in p.barriers
  {
    var b := p.barriers[(t, context)];
    && context != 0 && t in p.reigns && b.floor <= p.reigns[t].commit
    && b.terms.Keys == p.voters && b.commits.Keys == p.voters
    && (forall v :: v in p.voters ==> b.terms[v] <= p.replicas[v].term)
    && (forall x :: x in p.voters ==> b.commits[x] <= b.floor || IsQuorum(p.voters, AheadAt(p, b, t)))
  }

  // The triggers keep the solver from unfolding an entity that a proof does not mention.
  ghost predicate Inv(p: Proto) {
    && 0 !in p.voters
    && (forall v {:trigger GoodReplica(p, v, p.replicas[v])} :: v in p.voters ==> GoodReplica(p, v, p.replicas[v]))
    && (forall v, t {:trigger GoodAck(p, v, t)} :: (v, t) in p.acks ==> GoodAck(p, v, t))
    && (forall v, t {:trigger GoodBallot(p, v, t)} :: (v, t) in p.ballots ==> GoodBallot(p, v, t))
    && (forall t {:trigger GoodReign(p, t)} :: t in p.reigns ==> GoodReign(p, t))
    && (forall m {:trigger GoodPacket(p, m)} :: m in p.packets ==> GoodPacket(p, m))
    && (forall t, c {:trigger GoodBarrier(p, t, c)} :: (t, c) in p.barriers ==> GoodBarrier(p, t, c))
  }
}
