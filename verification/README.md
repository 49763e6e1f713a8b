# Verified models of the consensus toolkit

The repository holds a Raft consensus core with a write-ahead log below it and a replicated
key-value machine above it, a deterministic engine that drives clusters, and small protocols that
run on that engine.  This project models that logic in Dafny and proves what the repository
promises of it.

`dafny verify dfyconfig.toml` checks everything.

## What is proved

**Consensus, over whole runs.**  `NodeModel` says, call by call, what the consensus node does to its
fields and its disk; `RaftNode` is the node as the program runs it, with its loops and early
returns, proved against `NodeModel`.  `RaftCluster` puts nodes over one fixed voter set on a network
that loses, repeats and reorders messages but forges none, and lets any write fail (with or without
reaching the disk) and any node restart at any moment.  `RaftProtocol` and `RaftSteps` hold an
abstract protocol with an inductive invariant; `RaftRefinement` and `RaftCalls` show each call of a
node to be steps of it.  `RaftSafety` and `RaftIndexes` read off the results: one leader per term,
log matching, leader completeness, agreement on committed prefixes for ever, votes and
acknowledgements durable before they can be seen, linearizable read barriers, and indexes in order.
`ReplicatedMachine` carries them up to the key-value machines.

**Durability.**  `WalFormat`, `WalLog`, `RaftWalReplay` and `RaftStore` model the record format, the
log with torn tails, its replay, and snapshots with interrupted compaction, each proved to refine
what is above it down to bytes, torn writes included.  `NodeDurability` shows that a running node's
disk holds its memory over any history, compaction and snapshot installation included,
`NodePromises` that no vote or acknowledgement is queued before the record behind it is durable, and
`Restarts` exactly when a restarted node runs.

**Progress.**  `CatchUp` and `SnapshotTransfer` follow a leader and a follower whose logs have come
apart, `Campaign` a node that times out, `ReadProgress` a read barrier and `PaxosProgress` a proposal.
Each says exactly when the exchange of messages gets there, and so pins what every message carries.

**Configuration changes and pre-votes.**  `Configuration`, `ConfigurationRuns` and `LoneLeader` follow
one node, `JointCommit` says which majorities a decision needs meanwhile, `Membership` compares the two forms of the quorum rule, and `PreVote` follows a group that
is cut off.

**Engine against simulator.**  `Schedule` is a specification of both; `Engine` (binary heap, in
place) and `Simulator` (linear scan) are proved against it for every cluster, every stream of draws
and every script, so that `Equivalence` can put them in lockstep; `Deliveries` says what a run does to
the cluster, call by call.

**Smaller protocols.**  Single-decree Paxos (`PaxosProtocol` to `PaxosNode`), the key-value machine
(`MachineModel`, `MachineSnapshot`, `StateMachine`) and the token ring (`TokenRing`).

## Where the code does not do what one might expect

Each of these is stated as a lemma, beside the condition under which all is well.

- A leader that is a quorum by itself commits a configuration change and then marks it pending; left
  to itself it keeps the mark and refuses every later change (`LoneLeader.LoneLeaderStaysPending`,
  `LoneLeader.StuckForever`; condition in `Configuration.ProposeJointExactly`).
- A snapshot stores the voters of the commit index under the number of the entry compacted at.  A node
  that compacts below a committed configuration entry stops at its next restart
  (`Restarts.CompactionStrands`; condition in `Restarts.CompactRestarts`).
- A leader drops every answer that names an index beyond its own log, refusals included.  A follower
  with a longer log that does not fit is therefore not corrected until the leader's log has outgrown
  it (`CatchUp.Stranded`, `CatchUp.LongTail`; condition in `CatchUp.CatchesUpExactly`).
- A leader notes an installed snapshot only if it moves the match index.  Once an old refusal has taken
  the next index back below the base of a leader that knew better, the snapshot is sent for ever
  (`SnapshotTransfer.RepeatsForever`, `DelayedRefusal`; condition in `SnapshotTransfer.TransferCatchesUp`).
- A node that has stopped on a storage error still compacts when asked (`NodeDurability.CallHalted`).
- Log indexes 2^64 - 2 and 2^64 - 1 double as fence marks, and entries stored there are misread at
  replay (`RaftWalReplay.MarksAreMisread`, in both directions).
- The Paxos tally counts acceptances, not acceptors, and overcounts when a message is delivered
  twice (`PaxosOnce.DuplicationOvercounts`; conditions in `PaxosTally.TallyIsChosen`,
  `PaxosOnce.TallyIsExact` and `PaxosOnce.RepeatsExactly`).  The comment in the source says that an acceptor accepts a pair only
  once; under repeated delivery the code accepts it again.
- A minority that already holds fresh pre-votes from outside can raise its term, although the repository's
  safety document speaks of every isolated minority (`PreVote.LeftoverPreVotes`; condition in `PreVote.RaisesExactly`).
- An append or snapshot that contradicts committed entries is not refused by the node itself
  (`NodeDurability.OverwritingBreaksOrder`, `ContradictionBreaksOrder`; condition in `OrderExactly`).
  In the runs of `RaftCluster` no such message ever takes effect (`RaftSafety.CommittedForever`).

## Assumptions

Counters do not reach 2^64.  Node identifiers are 1 to 64, as the source demands by panicking
otherwise, and a node's peers are distinct.  Checksums are an arbitrary function of the bytes.
Random draws, clocks, cancellations and write failures are parameters.

## Model

| member | source | states |
|---|---|---|
| `RaftSafety.ProtocolBehind` | raft/node.go:112-465 | Every run of a cluster, with lost, repeated and reordered messages, failed writes and restarts, is a run of the abstract voting and replication protocol: a protocol state satisfying the inductive invariant stands behind every cluster state, each evolved from the ones before |
| `RaftSafety.ElectionSafety` | dst/raftcluster/invariants.go:25-39 | At most one node ever leads a term, compared across any two moments of a run and across restarts |
| `RaftSafety.CommittedPrefixAgreement` | dst/raftcluster/invariants.go:55-77 | Any two nodes, at any two moments of a run, hold the same entries up to every index that both have committed |
| `RaftIndexes.IndexSanity` | dst/raftcluster/invariants.go:41-53 | Base, applied, commit and last index of every running node are in order in every reachable state |
| `RaftSafety.CommittedForever` | raft/node.go:367-416 | What a node has committed stays on its disk unchanged: no later conflict, truncation, term change or crash removes it, and neither commit index nor term goes back |
| `RaftSafety.LogMatching` | raft/node.go:367-392 | Equal terms at an index of two logs, whoever holds them and whenever, imply equal logs up to that index |
| `RaftSafety.LeaderAppendOnly` | raft/node.go:515-531 | While a node leads a term its log only grows |
| `RaftSafety.LeaderCompleteness` | raft/node.go:335-348 | A leader holds every entry that anybody committed in its term or an earlier one |
| `RaftSafety.MatchIsSound` | raft/node.go:435-445 | A leader's match index for a follower in its term is a true common prefix length of the two logs, although later answers may lower it |
| `RaftSafety.MemoryMirrorsDisk` | raft/node.go:787-811 | Term, vote, commit index and log of a running node are exactly those on its disk, in every reachable state |
| `RaftSafety.VoteIsDurable` | raft/node.go:340-347 | A granted vote that is queued or sent is already on the voter's disk, and stays there while the voter is in that term |
| `RaftSafety.OneVotePerTerm` | raft/node.go:335-348 | No voter grants two candidates a vote in one term, even with crashes between the two grants |
| `RaftSafety.AckIsDurable` | raft/node.go:407-416 | An acknowledgement that is queued or sent is backed by the follower's disk: the follower is in that term or past it, and in it its log reaches the acknowledged index and is the log of whoever leads the term, up to there |
| `RaftSafety.ReadBarrier` | raft/node.go:286-310 | With unique contexts, a completed read returns an index at least as large as every commit index that any node held when its barrier was accepted, whatever happened in between and whichever node is asked |
| `RaftSafety.ReadWasOpened` | raft/node.go:304-310 | Any read that completes was opened earlier by the same node in the term it now leads |
| `RaftSafety.SameCommands` | raft/node.go:657-666 | Of the commands that two nodes hand to their machines, one list is a prefix of the other |
| `ReplicatedMachine.MachinesAgree` | statemachine/machine.go:40-65 | Nodes with equal commit indexes have equal key-value machines, client memory included; a node that is behind catches up by applying what it misses |
| `RaftSafety.AnyCallIsEnabled` | raft/node.go:112-205 | Runs leave nothing out: in every reachable state any call on any node, and the delivery of any message ever drained to its addressee, is a possible next event |
| `RaftSteps.CastVoteKeeps` | raft/node.go:335-348 | Granting a vote under the up-to-date rule keeps the protocol invariant, in particular that what a quorum could have committed is in the log of everybody still electable |
| `RaftSteps.ElectKeeps` | raft/node.go:186-191 | A candidate with a majority of votes starts a term that nobody has led, with a log that holds everything any earlier term could have committed |
| `RaftSteps.FollowKeeps` | raft/node.go:373-392 | Following an append message, with or without dropping a conflicting suffix, keeps every promise the follower has made |
| `RaftSteps.LeadCommitKeeps` | raft/node.go:436-458 | Committing an entry of the own term on a majority of match indexes keeps the invariant: every later leader holds it |
| `RaftSteps.LeadKeeps` | raft/node.go:515-520 | Appending to the log of a leader keeps the invariant |
| `RaftCalls.OnVoteTracks` | raft/node.go:335-348 | Handling a vote request, with the write succeeding or failing before or after reaching the disk, is protocol steps of that node alone |
| `RaftCalls.OnAppendTracks` | raft/node.go:367-416 | Handling an append message, interrupted at any write, is protocol steps of that node alone |
| `RaftCalls.OnAppendResponseTracks` | raft/node.go:418-465 | Handling an append answer, with backtracking, commit scan and rebroadcast, is protocol steps of that node alone |
| `RaftCalls.StartElectionTracks` | raft/node.go:144-160 | Starting an election, up to becoming leader at once in a cluster of one, is protocol steps of that node alone |
| `RaftCalls.RestartTracks` | raft/recover.go:5-32 | Rebuilding a node from its disk is a protocol step that loses nothing but its role |
| `RaftCluster.NextRel` | raft/node.go:162-205 | Every event of a cluster, on any one node, keeps the protocol behind it |
| `RaftNode.Node.constructor` | raft/node.go:42-62 | A new node knows the voter mask of itself and its peers |
| `RaftNode.Node.Tick` | raft/node.go:112-127 | The record becomes what the model of a tick makes of it: heartbeat after three ticks, pre-vote after the timeout |
| `RaftNode.Node.StartPreVote` | raft/node.go:129-142 | A pre-vote changes no durable state unless the node is a quorum by itself; agrees with the model |
| `RaftNode.Node.StartElection` | raft/node.go:144-160 | Term and vote are stored before the requests are queued; agrees with the model |
| `RaftNode.Node.Step` | raft/node.go:162-205 | Adopting a higher term, storing it first, then dispatching; agrees with the model, keeps a mirrored node mirrored, and queues only promises that the disk backs |
| `RaftNode.Node.Compact` | raft/node.go:207-235 | The snapshot is published before the log is fenced and the prefix dropped; succeeds exactly when the base moves to the index; keeps a mirrored node mirrored and the disk of a stopped one sound |
| `RaftNode.Node.OnInstallSnapshot` | raft/node.go:237-272 | Keeps the suffix exactly when the log holds the last entry of the snapshot; agrees with the model |
| `RaftNode.Node.OnInstallSnapshotResponse` | raft/node.go:274-284 | Match indexes only grow here; agrees with the model |
| `RaftNode.Node.StartReadIndex` | raft/node.go:286-302 | A barrier is accepted exactly under the guard, and every peer is asked with its context; agrees with the model |
| `RaftNode.Node.TransferLeadership` | raft/node.go:312-325 | The order to campaign is queued only for a target whose match index reaches the end of the log |
| `RaftNode.Node.OnPreVote` | raft/node.go:326-334 | Answers a pre-vote without changing anything but the queue |
| `RaftNode.Node.OnVote` | raft/node.go:335-348 | The vote is stored before the grant is queued; agrees with the model |
| `RaftNode.Node.OnAppend` | raft/node.go:367-416 | Rejection, conflict, append, commit and answer agree with the model, with an early return at each failed write |
| `RaftNode.Node.OnAppendResponse` | raft/node.go:418-465 | Read acknowledgement, backtracking, commit scan and next append agree with the model |
| `RaftNode.Node.AdvanceCommit` | raft/node.go:436-458 | The downward scan agrees with the model of the commit rule, which is `JointCommit.AdvancesExactly` |
| `RaftNode.Node.AckedMask` | raft/node.go:440-445 | The loop over the peers collects exactly the nodes whose match index reaches the index |
| `RaftNode.Node.VoterMask` | raft/node.go:467-480 | The loop gives the mask of a list without repeats and nothing for an empty or repeating list |
| `RaftNode.Node.ProposeJoint` | raft/node.go:482-498 | Succeeds exactly when the list is proper, the node leads, no change is under way and the writes succeed; agrees with the model |
| `RaftNode.Node.ProposeFinal` | raft/node.go:500-513 | Succeeds exactly when the node leads in a joint configuration with nothing pending and the writes succeed |
| `RaftNode.Node.AppendLocal` | raft/node.go:515-531 | A node that is a quorum alone commits at once; a failed commit write takes the commit index back |
| `RaftNode.Node.EnsurePeers` | raft/node.go:533-548 | The scan over all identifiers adds exactly the nodes of the mask that are neither this node nor peers yet |
| `RaftNode.Node.ApplyCommittedConfigurations` | raft/node.go:550-570 | The loop over newly committed entries switches voters, steps down when removed, and clears the pending mark |
| `RaftNode.Node.Propose` | raft/node.go:571-581 | Succeeds exactly on a running leader whose writes succeed |
| `RaftNode.Node.ProposeRequest` | raft/node.go:583-595 | Refuses zero client or request numbers and unknown operations |
| `RaftNode.Node.BecomeLeader` | raft/node.go:597-607 | A new leader stores its empty entry before anything is sent, and resets what it knew of the peers |
| `RaftNode.Node.BroadcastAppend` | raft/node.go:609-615 | The loop sends to every voting peer in order |
| `RaftNode.Node.AppendToContext` | raft/node.go:621-642 | Sends the entry at the next index, clamped to the log, or a snapshot when it is compacted away |
| `RaftNode.Node.Drain` | raft/node.go:651-655 | Appends the queue to the destination and empties it |
| `RaftNode.Node.ApplyEntries` | raft/node.go:657-666 | The loop hands over exactly the normal entries between applied and commit index, in order |
| `RaftNode.Node.RestoreConfigurationState` | raft/node.go:677-718 | The replay loop ends with the voters and pending change its log spells, or fails at the first entry no run could have stored |
| `RaftNode.Node.RebuildPendingConfig` | raft/node.go:719-730 | The loop finds the last configuration entry above the commit index |
| `RaftNode.Node.EffectiveVoters` | raft/node.go:732-742 | The loop finds the voters in force: a joint entry counts as soon as it is in the log |
| `RaftNode.Node.CanCommitIndex` | raft/node.go:743-755 | The loop asks for both majorities under the configuration in force at the index; what that means in terms of log and voters is `JointCommit.CommitsExactly` |
| `RaftNode.Node.PersistHardState` | raft/node.go:787-811 | Either stored, or the node has stopped with its queue emptied |
| `RaftNode.Node.Recovered` | raft/recover.go:3-32 | Agrees with the model of recovery, failing when the commit index lies beyond the log |
| `RaftNode.Node.RecoveredWithSnapshot` | raft/recover.go:34-69 | Agrees with the model of recovery from a snapshot and the log after it |
| `Bits.BitsSet` | raft/node.go:760-767 | Clearing the lowest bit until none is left terminates and counts the set bits |
| `Bits.PopcountIsSize` | raft/node.go:760-767 | The number of set bits is the number of nodes that a mask stands for |
| `Bits.MajorityMaskIsQuorum` | raft/node.go:756-758 | The mask test holds exactly when the acknowledged nodes contain a majority of the voters |
| `Quorums.QuorumsMeet` | raft/node.go:756-758 | Any two majorities of one voter set share a voter |
| `Membership.Majority` | raft/membership.go:23-34 | The counting loop decides the list form of the majority rule, refusing an empty list |
| `Membership.CanCommit` | raft/membership.go:12-17 | Both majorities are needed during a transition |
| `Membership.Contains` | raft/membership.go:36-43 | The search loop finds exactly the listed identifiers |
| `Membership.ListIsQuorum` | raft/membership.go:23-34 | On a list without repeats the list form asks for a majority of the voters |
| `Membership.MaskOfList` | raft/node.go:467-480 | A mask is built exactly from lists without repeats, and stands for their members |
| `Membership.FormsAgree` | raft/node.go:756-758 | The mask form and the list form of the majority rule decide alike |
| `Membership.QuorumsMeetAcrossChange` | raft/node.go:743-755 | Quorums of the old and the joint, of two joint, and of the joint and the new configuration share a voter |
| `Membership.DisjointWithoutJoint` | raft/node.go:743-755 | Without the joint step two configurations may decide apart |
| `JointCommit.CommitsExactly` | raft/node.go:743-755 | An index may be committed exactly when the acknowledgements hold a majority of both sets that the last joint entry above the commit index and up to it names or, without one, of the voters in force |
| `JointCommit.QuorumExactly` | raft/node.go:769-773 | The same for elections and reads, with every joint entry of the log |
| `JointCommit.VotersExactly` | raft/node.go:775-779 | A node is a voter exactly when the configuration in force names it in either set |
| `JointCommit.AdvancesExactly` | raft/node.go:436-458 | A leader moves its commit index to the highest index of its own term that majorities of both sets hold, and never to another |
| `JointCommit.HighestCommittable` | raft/node.go:436-446 | The downward scan finds something exactly when some index qualifies, and then the highest |
| `JointCommit.AppendsExactly` | raft/node.go:515-531 | An appended entry is committed at once exactly when the node by itself is the majorities that the log, with the new entry, asks for |
| `JointCommit.ElectedByBoth` | raft/node.go:184-191 | A candidate that becomes leader on an answer has the votes of both majorities |
| `CatchUp.CatchesUpExactly` | raft/node.go:418-465 | However far two logs have come apart, after two exchanges more than twice the length above a shared index the follower holds the whole log of the leader, which knows it, exactly when the first offer fitted or the follower's log was no longer than the leader's; then it has also committed what the leader had |
| `CatchUp.Stranded` | raft/node.go:425-427 | A follower with a longer log that does not fit is never brought into line: its refusals are dropped unread and the same offer is repeated |
| `CatchUp.LongTail` | raft/node.go:425-427 | Such a pair: a new leader with one entry, and a former leader with two of its own |
| `CatchUp.KeepsRefusing` | raft/node.go:409-416 | The refusals of such a follower write nothing, so the exchange can always go on |
| `CatchUp.Advances` | raft/node.go:367-416 | An offer that fits is taken, acknowledged and recorded, and the next is sent at once |
| `CatchUp.Retreats` | raft/node.go:428-433 | An offer that does not fit is refused, and one that starts one entry earlier is sent at once |
| `CatchUp.BroadcastServes` | raft/node.go:609-642 | A broadcast sends every voting peer, once and in order, the entry it needs next with the term before it and the commit index, or the snapshot; nobody else gets anything |
| `CatchUp.HeartbeatServes` | raft/node.go:112-121 | An idle leader is silent for two ticks and serves every voting peer on the third |
| `SnapshotTransfer.TransferCatchesUp` | raft/node.go:237-284 | A follower that needs a snapshot holds the whole log of the leader after the snapshot and the exchanges that follow, exactly when its own base does not contradict the snapshot and the leader does not take it to be there already |
| `SnapshotTransfer.TransfersExactly` | raft/node.go:237-284 | What one such exchange does to base, log, match index and next index of both |
| `SnapshotTransfer.RepeatsForever` | raft/node.go:274-284 | Otherwise the same snapshot is sent for ever and nothing changes |
| `SnapshotTransfer.DelayedRefusal` | raft/node.go:428-433 | A leader that has compacted up to what a follower holds and then hears an old refusal again is in that loop |
| `SnapshotTransfer.CompactPrepares` | raft/node.go:207-235 | A compaction leaves a snapshot that ends at the new base and holds the state and voters, and a log unchanged from there on |
| `SnapshotTransfer.MachineArrives` | raft/node.go:237-272 | The machine restored from a transferred snapshot ends like the one it was taken of, once both have applied the rest of the commands |
| `Campaign.WinsExactly` | raft/node.go:129-191 | A node that times out stands for the next term exactly when it and the voters that hear from no leader and whose logs are not ahead are a majority; then they elect it |
| `Campaign.TimesOut` | raft/node.go:129-142 | The timeout changes no durable state and asks every peer once, with the end of the log |
| `Campaign.PreVoteAnswer` | raft/node.go:326-334 | A pre-vote request changes nothing, and is granted exactly by a voter that is not ahead and hears from no leader |
| `Campaign.VoteAnswer` | raft/node.go:335-348 | In a new term a vote is granted exactly by a voter whose log is not ahead |
| `Campaign.TakesOffice` | raft/node.go:597-607 | A new leader has its empty entry at the end of the log, takes nothing of the peers for known, and offers each what follows |
| `Campaign.OrdersExactly` | raft/node.go:312-325 | The order to campaign is sent exactly to another voter known to hold the whole log |
| `Campaign.ObeysExactly` | raft/node.go:200-203 | It makes a follower of that leader stand at once, and nobody else |
| `ReadProgress.ReadsExactly` | raft/node.go:304-310 | A barrier can be read exactly when the leader and the voters that have answered it are a majority |
| `ReadProgress.Opens` | raft/node.go:286-302 | An accepted barrier counts the leader itself, and every peer is asked with its context |
| `PreVote.Containment` | raft/node.go:129-142 | No run of ticks and deliveries inside a group that is no majority raises its largest term, provided that pre-votes already held for the term above it are no majority together with the group; logs may be compacted, and older pre-votes do not matter |
| `PreVote.LeftoverPreVotes` | raft/node.go:176-182 | One of five nodes times out, hears a pre-vote from outside and is then cut off with one other: the two together raise their term |
| `PreVote.RaisesExactly` | raft/node.go:176-182 | A granted pre-vote raises the term exactly when all voters heard from so far, inside the group or not, are a majority |
| `Configuration.RestoreAgrees` | raft/node.go:677-718 | Restoring from the log gives the voters and the pending change of a node that agrees with its log |
| `Configuration.StoreEntryConfig` | raft/node.go:375-392 | Storing a checked entry above the commit index, replacing a conflicting suffix, keeps the configuration equal to what the log spells |
| `Configuration.CommitAtConfig` | raft/node.go:447-452 | Advancing the commit index keeps the configuration equal to what the log spells |
| `Configuration.ProposeJointExactly` | raft/node.go:482-498 | Proposing a joint configuration keeps that agreement exactly when the leader is not a quorum by itself |
| `Configuration.ProposeFinalExactly` | raft/node.go:500-513 | Likewise for the final configuration |
| `ConfigurationRuns.ReplayAgrees` | raft/node.go:550-570 | Over any history of calls, truncations and commits, live configuration state is what replaying the log gives |
| `ConfigurationRuns.RestartSeesSame` | raft/node.go:677-718 | A restart at any point of such a history restores voters and pending change of the running node |
| `ConfigurationRuns.FreshRestarts` | raft/node.go:677-718 | The same from a new node on |
| `LoneLeader.LoneLeaderStaysPending` | raft/node.go:492-496 | The only node of a cluster times out, leads and proposes a change: the change commits and is then marked pending, so that a restart disagrees |
| `LoneLeader.StuckForever` | raft/node.go:486-488 | Over any calls but deliveries, with any failing writes, that mark stays and every further change is refused |
| `NodeDurability.DurableMirror` | raft/node.go:144-272 | Over any history of public calls whose messages contradict nothing committed, of failed writes and of restarts, the disk of a running node holds its term, vote, commit index, base and log, and the disk of a stopped node, which may still be asked to compact, is one to rebuild from |
| `NodeDurability.CallKept` | raft/node.go:787-793 | Every public call keeps a running node mirrored, and stops it only on a failed write: the guards of the store never fire |
| `NodeDurability.CallHalted` | raft/node.go:209-235 | A stopped node stays stopped and silent; the one call that still writes is a compaction, and what it writes, or fails to write, keeps the disk sound |
| `NodeDurability.RebuildsSame` | raft/recover.go:34-69 | Reopening the store of a running node rebuilds its term, vote, commit index, base and log above the base, unless its snapshot names no voters; then the rebuilt node has stopped |
| `NodeDurability.RebuildMirrors` | raft/recover.go:34-69 | Whatever disk a node leaves, it can be opened when its snapshot lies within its log; the rebuilt node, running or stopped, is mirrored by it unless the snapshot names no voters |
| `Restarts.RebuildRuns` | raft/recover.go:3-69 | Exactly when a restarted node runs: its snapshot names voters, and the first configuration entry of its log follows from the voters the restart starts from; then pending change and voters are as before |
| `Restarts.CompactRestarts` | raft/node.go:222-234 | Exactly when a node that has compacted restarts: no configuration entry lies between the cut and the commit index, or the first one there follows from the voters at the commit index, which the snapshot stores; then it has the same voters and pending change |
| `Restarts.CompactionStrands` | raft/node.go:209-235 | In any cluster, a node that compacts at its applied index below a committed joint configuration stops at its next restart |
| `NodePromises.PromisesAreBacked` | raft/node.go:335-416 | In any such history every vote granted and append acknowledged is, when it is queued, on the disk the call leaves; a stopped node has nothing queued |
| `NodePromises.VotesStayBacked` | raft/node.go:335-348 | As long as a granted vote is queued, the disk holds it or has moved past its term |
| `NodePromises.AcknowledgedIsStored` | raft/node.go:367-416 | A delivered append is refused, or acknowledged up to the index it reaches with its entry and the one before it on disk |
| `NodePromises.CallSpoken` | raft/node.go:112-325 | The same for one call, with compaction, snapshots and any configuration |
| `NodeDurability.OrderExactly` | raft/node.go:367-416 | Indexes stay in order after an append or snapshot exactly when the message contradicts nothing committed below the commit index |
| `NodeDurability.OverwritingBreaksOrder` | raft/node.go:376-380 | An append that drops committed entries leaves the commit index beyond the log |
| `NodeDurability.ContradictionBreaksOrder` | raft/node.go:256-266 | A snapshot that contradicts committed entries leaves the commit index beyond the log |
| `RaftWalReplay.ReplayRefines` | storage/raftwal/store.go:27-74 | After any error-free sequence of operations replay rebuilds exactly the hard state, base and data in memory |
| `RaftWalReplay.ReplaysOp` | storage/raftwal/store.go:34-70 | Replaying the record of one operation does what the operation did |
| `RaftWalReplay.MarksAreMisread` | storage/raftwal/store.go:14-18 | Exactly which entries at the two highest indexes are not rebuilt, because their index is taken for a fence |
| `RaftWalReplay.OpensAgain` | storage/raftwal/store.go:27-74 | The bytes of a durable store open to the same state and the same place to append |
| `RaftWalReplay.TornWrite` | storage/raftwal/store.go:154-160 | A power loss after any number of bytes of one record leaves a medium that opens to the state before the operation or, when all bytes got through, after it |
| `RaftWalReplay.Store.Open` | storage/raftwal/store.go:27-74 | The loop over recovered records gives their fold, or fails exactly when the fold does |
| `RaftWalReplay.Store.SaveHardState` | storage/raftwal/store.go:76-88 | Refuses exactly the regressions of term, commit index and vote; otherwise stored before memory changes, and the bytes still open to this state |
| `RaftWalReplay.Store.Append` | storage/raftwal/store.go:90-108 | Refuses exactly indexes at or below the base or beyond the end; overwrites a suffix otherwise, and the bytes still open to this state |
| `RaftWalReplay.Store.ResetBase` | storage/raftwal/store.go:127-137 | Installs a base, and the bytes still open to this state |
| `RaftWalReplay.Store.CompactLog` | storage/raftwal/store.go:141-153 | Drops a prefix inside the log, and the bytes still open to this state |
| `RaftStore.InterruptedCompaction` | storage/raftstore/store.go:26-74 | Opening after a crash between snapshot and fence gives what finishing the compaction and opening would, with or without a matching entry |
| `RaftStore.OpensWithinLog` | storage/raftstore/store.go:43-46 | Opening succeeds exactly when the snapshot lies within the log |
| `RaftStore.Recovers` | storage/raftstore/store.go:26-74 | What opening recovers: hard state, snapshot, and exactly the entries after it |
| `RaftStore.OpensIdempotently` | storage/raftstore/store.go:26-74 | Opening again changes nothing |
| `RaftStore.TornFence` | storage/raftstore/store.go:39-57 | A crash inside the fence itself, with any number of its bytes written, gives the same recovery |
| `RaftStore.KeptIsWhole` | storage/raftwal/store.go:154-160 | A failed write of the modelled disk is a torn write of bytes, kept exactly when the whole record got through |
| `RaftStore.Store.OpenWith` | storage/raftstore/store.go:26-74 | The opening code, driving the log store, agrees with that, and a durable log stays durable |
| `RaftStore.Store.SaveSnapshot` | storage/raftstore/store.go:84-96 | Publishes a snapshot and remembers it for the fence; an older one is refused and changes nothing |
| `RaftStore.Store.CompactLog` | storage/raftstore/store.go:98-112 | Fences exactly the pending snapshot, compacting on a matching term and resetting otherwise; a durable log stays durable |
| `WalFormat.RoundTrip` | storage/wal/format.go:52-77 | Decoding an encoded record gives it back, for every record whose fields fit and any checksum function; what else is accepted is `WalFormat.DecodesExactly` |
| `WalFormat.DecodesExactly` | storage/wal/format.go:52-60 | A record is accepted exactly when length, magic bytes and version are right and the last four bytes are the checksum of the others; each error exactly for its cause |
| `WalFormat.DamageIsRefused` | storage/wal/format.go:57-60 | A record with a damaged checksum is always refused, one with a damaged body exactly when the checksum function tells it from the original |
| `WalFormat.EncodeInto` | storage/wal/format.go:30-50 | Filling the buffer field by field leaves exactly the record layout |
| `WalLog.Recover` | storage/wal/wal.go:57-74 | The loop succeeds exactly when every whole record has the right form, checksum and number, and returns them all with the verified length; otherwise it reports the first record that fails and why |
| `WalLog.RecoversExactly` | storage/wal/wal.go:57-74 | Recovery of any image: all whole records when none has a flaw, else the flaw of the first that has one |
| `WalLog.CrashCut` | storage/wal/wal.go:57-74 | After a crash with any torn tail recovery returns exactly the records wholly inside the image, among them all synced ones; the reopened log continues their numbering |
| `WalLog.HistoryRefines` | storage/wal/wal.go:17-74 | Over any history of appends, syncs and crashes the log is its ledger of entries, and no recovery fails |
| `WalLog.OpRefines` | storage/wal/device.go:49-93 | The same for one operation |
| `WalLog.Log.Open` | storage/wal/wal.go:17-34 | Truncates a torn tail before appends and continues after the last sequence number; a bad image changes nothing |
| `WalLog.Log.Append` | storage/wal/wal.go:36-48 | Stages the records of the entries before a cancellation, numbered on |
| `WalLog.MemoryDevice.Crash` | storage/wal/device.go:80-93 | The medium after a power loss that let some staged bytes through; lengths out of range are refused |
| `WalLog.MemoryDevice.TruncateDurable` | storage/wal/device.go:70-78 | Shortens the durable bytes, refusing sizes out of range |
| `Equivalence.Lockstep` | dst/engine.go:105-120 | Driven by one script from equal states, heap engine and scanning simulator perform the same deliveries in the same order, and end with equal clocks, clusters, draws, counters, traces and bags of messages |
| `Equivalence.Conservation` | dst/engine.go:175-197 | In every run the sequence counter is the number of messages delivered, in flight and discarded by isolation, whatever injectors do |
| `Equivalence.SettledWindow` | dst/engine.go:105-120 | After a settled step every message in flight is due after now and within the longest delay |
| `Equivalence.Deadline` | dst/engine.go:105-120 | A message not touched by a restart has been delivered once a step has settled at its sending time plus the longest delay |
| `Equivalence.InjectorsDoNotShift` | dst/inject.go:5-15 | A batch collected with and without injectors takes the same draws; what is scheduled with them is what is scheduled without them, at the same times and in order, less the blocked messages |
| `Equivalence.CollectsExactly` | dst/engine.go:175-197 | What collecting a batch adds to the schedule: the messages not lost, at their drawn times, less the blocked ones, numbered in order |
| `Deliveries.RunsKeep` | dst/engine.go:102-120 | What ticks, drains, the changes of the script and the delivery of each message to the node it is addressed to all keep, every run keeps |
| `Deliveries.DeliveriesAreTraced` | dst/engine.go:111-119 | In every run the deliveries made on the cluster are those of the trace, in its order, each to the addressee of its message and of a message drained before |
| `Deliveries.CallsInOrder` | dst/engine.go:102-120 | A step ticks every node once in order, drains every node, and then makes the deliveries of the trace, each followed by a drain of every node; a proposal is followed by such a drain |
| `Deliveries.WatchingIsHarmless` | dst/engine.go:102-120 | Writing down the calls changes nothing, so that the two results above are about the run itself |
| `Engine.Engine.Push` | dst/engine.go:266-276 | Sifting up keeps the heap and adds exactly the event |
| `Engine.Engine.SiftDown` | dst/engine.go:289-305 | Sifting down restores the heap from a position on and keeps the events |
| `Engine.Engine.Pop` | dst/engine.go:278-287 | Removes exactly the earliest event, by due time and sequence number |
| `Engine.Engine.BlockedBy` | dst/engine.go:243-250 | The first injector that forbids the message is the one charged |
| `Engine.Engine.Collect` | dst/engine.go:175-197 | Draws, drops and schedules as the specification of a collection says |
| `Engine.Engine.Isolate` | dst/engine.go:203-218 | In-place filtering and re-heapifying drops exactly the messages to or from the node, and counts them |
| `Engine.Engine.Heapify` | dst/engine.go:213-217 | Sifting down from the middle makes a heap of any queue and keeps its events |
| `Engine.Engine.Step` | dst/engine.go:105-120 | Agrees with the specification of a step on the set of pending events, whose calls on the cluster are pinned by `Deliveries.CallsInOrder` and `Deliveries.DeliveriesAreTraced` |
| `Simulator.Simulator.NextReady` | sim/sim.go:163-175 | The scan finds the earliest due event, or none exactly when nothing is due |
| `Simulator.Simulator.Collect` | sim/sim.go:146-161 | Agrees with the specification of a collection |
| `Simulator.Simulator.Step` | sim/sim.go:72-89 | Agrees with the same specification of a step, and so with the same results about its calls |
| `Simulator.Simulator.Forget` | sim/crash.go:39-45 | Filtering the queue at a restart drops exactly the messages to or from the node |
| `Heap.RootIsNext` | dst/engine.go:262-264 | The root of a heap is the one earliest event |
| `PaxosSafety.Agreement` | examples/paxos/paxos.go:128-252 | Over any run at most one value is ever accepted by a majority, under any numbers and at any moments |
| `PaxosSafety.ProtocolBehind` | examples/paxos/paxos.go:128-252 | Every run of a cluster, with messages lost, repeated and reordered, is a run of the abstract protocol with its inductive invariant |
| `PaxosSafety.AnyCallIsEnabled` | examples/paxos/cluster.go:37-54 | Runs leave nothing out: any call on any node, and delivery, loss or repetition of any message under way, is a possible next event |
| `PaxosSafety.ChosenForever` | examples/paxos/paxos.go:209-219 | A chosen value stays chosen |
| `PaxosSafety.DecidedIsChosen` | examples/paxos/paxos.go:181-188 | A node that believes its proposal was chosen is right |
| `PaxosSafety.DecidedAgree` | examples/paxos/cluster.go:68-87 | Nodes that believe so hold the same value |
| `PaxosSafety.OneValuePerNumber` | examples/paxos/paxos.go:128-133 | No number is ever accepted with two values |
| `PaxosProtocol.MajorityPledged` | examples/paxos/paxos.go:221-238 | Once a majority is pledged to a number, the value of its highest vote is the only one that can still be decided below it |
| `PaxosOnce.TallyIsExact` | examples/paxos/cluster.go:89-114 | When no message is delivered twice the tally returns exactly the chosen values |
| `PaxosOnce.DuplicationOvercounts` | examples/paxos/cluster.go:92-99 | With a repeated message it may report a value that was never chosen |
| `PaxosOnce.RepeatsExactly` | examples/paxos/paxos.go:211-219 | A history without repeats gets one exactly when a request arrives under the number that the acceptor promised last and has accepted already |
| `PaxosTally.TallyIsChosen` | examples/paxos/cluster.go:89-114 | The tally never misses a chosen value, and reports no other when no history repeats an acceptance |
| `PaxosTally.TallyAre` | examples/paxos/cluster.go:100-113 | It returns each value with enough counted acceptances, once |
| `PaxosTally.ChosenValues` | examples/paxos/cluster.go:89-114 | Counting, then walking the histories again, gives the tally in first-seen order |
| `PaxosValidity.Validity` | examples/paxos/paxos.go:126-252 | In every state of every run, each value accepted, put to the vote, reported as accepted or being proposed is the value of some proposal made so far |
| `PaxosValidity.ChosenWasProposed` | examples/paxos/cluster.go:89-114 | A chosen value was proposed |
| `PaxosValidity.DecidedWasProposed` | examples/paxos/cluster.go:68-87 | So was the value a node has decided on |
| `PaxosValidity.TalliedWasProposed` | examples/paxos/cluster.go:89-114 | And every value in the tally, repeated messages or not |
| `PaxosValidity.RetryIs` | examples/paxos/paxos.go:150-160 | A retry has a number above all the node has promised, asks every peer, and is still for its own value unless the node is alone |
| `PaxosProgress.DecidesExactly` | examples/paxos/paxos.go:126-190 | A proposal whose requests reach acceptors that have promised no higher number goes to the vote, and is decided, exactly when those that answer are with the proposer a majority |
| `PaxosProgress.AnswersExactly` | examples/paxos/paxos.go:199-219 | An acceptor promises exactly what is above its last promise and accepts exactly what is not below it |
| `PaxosNode.Node.constructor` | examples/paxos/paxos.go:97-108 | The loop lists every other node as a peer |
| `PaxosNode.Node.Propose` | examples/paxos/paxos.go:126-148 | A higher number of its own, own promise first, then requests; agrees with the model |
| `PaxosNode.Node.Tick` | examples/paxos/paxos.go:150-160 | A round that has timed out is tried again; agrees with the model, whose retry is `PaxosValidity.RetryIs` |
| `PaxosNode.Node.Step` | examples/paxos/paxos.go:162-190 | Agrees with the model of a delivery |
| `PaxosNode.Node.OnPrepare` | examples/paxos/paxos.go:199-207 | Promises only on a strictly higher number and reports the accepted value |
| `PaxosNode.Node.OnAccept` | examples/paxos/paxos.go:209-219 | Refuses exactly the numbers below the promise |
| `PaxosNode.Node.RecordPromise` | examples/paxos/paxos.go:221-252 | Adopts the highest accepted value at a quorum, votes for it itself, and may decide at once; agrees with the model |
| `PaxosNode.Node.Drain` | examples/paxos/paxos.go:192-197 | Hands the queue over |
| `MachineModel.ExactlyOnce` | statemachine/machine.go:40-65 | Applying any log leaves the values that carrying out each fresh request once, with no client memory at all, would leave; read off the log key by key in `MachineModel.Holds` |
| `MachineModel.Holds` | statemachine/machine.go:40-65 | After any log a key is present exactly when the last fresh request on it is a put, and holds what that put |
| `MachineModel.FreshAnswers` | statemachine/machine.go:53-65 | A fresh put is answered with its value, a fresh delete with what the key held just before, if anything |
| `MachineModel.OtherAnswers` | statemachine/machine.go:40-51 | Any other entry changes nothing; it is refused as stale exactly when its number is below the largest of its client |
| `MachineModel.RetryAnswersSame` | statemachine/machine.go:44-51 | A retry of a client's latest request is told what the request was told and changes nothing, whatever other clients did in between |
| `MachineModel.Resume` | statemachine/machine.go:40-65 | Applying the rest of a log to the state after any prefix gives the state after the whole |
| `MachineSnapshot.RestoreSnapshot` | statemachine/machine.go:121-152 | Restoring a snapshot gives the machine back, for any checksum function |
| `MachineSnapshot.RestoresExactly` | statemachine/machine.go:121-134 | An image is accepted exactly when its form is right, its length agrees with its counts, and its last four bytes are the checksum of the others |
| `MachineSnapshot.ResumeFromSnapshot` | statemachine/machine.go:83-152 | A machine restored from a snapshot of any prefix and given the rest is the machine that applied the whole log |
| `MachineSnapshot.AscendingUnique` | statemachine/machine.go:84-93 | A set of keys has one ascending listing, so equal machines have equal snapshots |
| `StateMachine.RecallAgrees` | statemachine/machine.go:72-81 | Looking a request up tells exactly what applying it would do: known, stale, or to be carried out |
| `StateMachine.Machine.Apply` | statemachine/machine.go:40-65 | Agrees with the model in new state and in answer; what these are, read off the log, is `MachineModel.Holds` and `MachineModel.FreshAnswers` |
| `StateMachine.Machine.Get` | statemachine/machine.go:67-70 | The stored value, or zero and not found |
| `StateMachine.Machine.Cached` | statemachine/machine.go:72-81 | Agrees with the lookup above |
| `StateMachine.Machine.Snapshot` | statemachine/machine.go:83-119 | The bytes depend on the state alone: walking the maps in any order and sorting gives the one image |
| `StateMachine.Machine.Restore` | statemachine/machine.go:121-152 | Refuses exactly the images the model refuses, and otherwise rebuilds both maps |
| `StateMachine.Sorted` | statemachine/machine.go:84-88 | Collecting keys in any order and sorting gives the ascending listing |
| `TokenRing.TokenIsUnique` | examples/tokenring-consumer/tokenring/tokenring.go:18-23 | For any ring size and any run in which messages are lost, reordered or delivered many times, at most one node holds the token |
| `TokenRing.TokenGoesRound` | examples/tokenring-consumer/tokenring/tokenring.go:18-23 | In every such run each pass goes from the node whose turn it is to the next, whoever holds the token is the node whose turn it is, and the token is never lost: it is held, or its latest pass can still be taken |
| `TokenRing.RepeatIsIgnored` | examples/tokenring-consumer/tokenring/tokenring.go:87-95 | A message that has been accepted once is stale for the rest of the run; delivering it again, to whomever and whenever, changes nothing |
| `TokenRingClass.Ring.New` | examples/tokenring-consumer/tokenring/tokenring.go:29-48 | Refuses rings of fewer than two nodes; otherwise the first node holds the token |
| `TokenRingClass.Ring.Advance` | examples/tokenring-consumer/tokenring/tokenring.go:55-73 | Ownership is given up before the message is queued; agrees with the model |
| `TokenRingClass.Ring.Receive` | examples/tokenring-consumer/tokenring/tokenring.go:75-95 | Strangers, misrouted messages and stale numbers are ignored; agrees with the model |
| `TokenRingClass.Ring.TakeOutbound` | examples/tokenring-consumer/tokenring/tokenring.go:97-107 | Returns and clears the queue of a node |
| `TokenRingClass.Ring.HolderIDs` | examples/tokenring-consumer/tokenring/tokenring.go:109-120 | The holders, each in ring order |
| `TokenRingClass.Ring.SuccessorOf` | examples/tokenring-consumer/tokenring/tokenring.go:127-135 | The next identifier in ring order, or zero for a stranger |

## Left out

- Cluster-wide safety under membership change, compaction and snapshot transfer: runs in `RaftCluster` have one fixed voter set and uncompacted logs; configurations and snapshots are treated per node.
- Liveness of Raft and Paxos under timing: the results on progress take the exchange of messages as given; and termination of an engine step whose deliveries keep producing messages due at once.
- Engine.Engine.Step: takes the number of deliveries it may make as an argument, and says whether it settled, because a step of the source need not end; the statements hold for every such number.
- Simulator.Simulator.Step: the same.
- RaftNode.Node.Step: the struct's fields are one record that the methods replace; sharing of the backing array between slices of the log is not modelled.
- RaftNode.Node.AppendToContext: looking up an index outside the log gives the zero entry where the source panics; `RaftIndexes.IndexSanity` shows the indexes in order in every reachable state.
- The bound of 4096 queued messages, beyond which the source panics.
- RaftSafety.ReadBarrier: for contexts that are not used twice, as the source asks of its callers.
- CatchUp.CatchesUpExactly: for logs without configuration entries, over exchanges in which no write fails, and for a leader that appends nothing meanwhile.
- SnapshotTransfer.TransferCatchesUp: the same.
- Campaign.WinsExactly: for one fixed voter set and uncompacted logs, with no write failing and no voter ahead in term; a node that is a majority by itself is left to `LoneLeader`.
- ReadProgress.ReadsExactly: for one fixed voter set and uncompacted logs, with no write failing.
- Deliveries.CallsInOrder: for clusters whose list of nodes does not change, as all those of the repository.
- MachineSnapshot.RestoreSnapshot: for machines whose numbers are 64 bits wide and whose keys and clients number fewer than 2^32, the width of the counts in the image.
- RaftWalReplay.Store.Open: refuses a stored kind or operation other than the known ones, where the source keeps the byte; no operation of the store writes one.
- RaftWalReplay.Store.Append: that the bytes open again is stated for records whose fields fit the format and whose index is below the two fence marks.
- RaftStore.Store.OpenWith: the snapshot file is a value; its encoding, rename and fsync are not modelled.  That the log stays durable is stated for fence records that fit their fields.
- NodePromises.VotesStayBacked: speaks of votes only, for a queued acknowledgement may be overtaken by a later append of the same term; that no leader sends such an append is `RaftSafety.AckIsDurable`, for a fixed voter set.
- WalLog.Log.Append: cancellation is an argument that says after how many entries it strikes; write errors of the device are modelled at the stable store behind the node instead.
- SHA-256 of traces and the random generator: a trace is the sequence of recorded deliveries, and the generator a function of the bounds asked of it so far.
- The injectors of the engine beyond being pure functions: splits, links and time windows.
- The server, file and io_uring devices, backup, adapters, chaos campaigns, command line and scripts.
