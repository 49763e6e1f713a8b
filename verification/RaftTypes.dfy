/** The records of the consensus core: entries, messages, durable state. */
module RaftTypes {
  import opened Quorums

  datatype Option<+T> = None | Some(value: T)

  datatype Role = Follower | Candidate | Leader

  datatype EntryKind = Normal | JointConfig | FinalConfig | Noop

  datatype CommandOp = Legacy | Put | Delete

  /** One log entry. `oldVoters` and `newVoters` are bit masks over node identifiers. */
  datatype Entry = Entry(term: nat, command: nat, kind: EntryKind, oldVoters: nat, newVoters: nat,
                         operation: CommandOp, clientId: nat, requestId: nat, key: nat, value: nat)

  /** The zero entry: the sentinel at index zero of an uncompacted log. */
  const ZERO_ENTRY := Entry(0, 0, Normal, 0, 0, Legacy, 0, 0, 0, 0)

  type Byte = b: nat | b < 256

  datatype HardState = HardState(term: nat, votedFor: Id, commit: nat)

  datatype Snapshot = Snapshot(lastIndex: nat, lastTerm: nat, state: seq<Byte>, oldVoters: nat, newVoters: nat)

  const NO_SNAPSHOT := Snapshot(0, 0, [], 0, 0)

  datatype MessageType =
    | PreVote | PreVoteResponse | RequestVote | RequestVoteResponse
    | Append | AppendResponse | TimeoutNow | InstallSnapshot | InstallSnapshotResponse

  /** One message; a field that a message type does not use holds its zero value. */
  datatype Message = Message(kind: MessageType, from: Id, to: Id, term: nat,
                             logIndex: nat, logTerm: nat, entry: Entry, hasEntry: bool,
                             commit: nat, reject: bool, acked: nat, context: nat, snapshot: Snapshot)

  function Blank(kind: MessageType, from: Id, to: Id, term: nat): Message {
    Message(kind, from, to, term, 0, 0, ZERO_ENTRY, false, 0, false, 0, 0, NO_SNAPSHOT)
  }

  function Lookup(m: map<Id, nat>, id: Id): nat {
    if id in m then m[id] else 0
  }

  function Max(a: nat, b: nat): nat {
    if a >= b then a else b
  }

  function Min(a: nat, b: nat): nat {
    if a <= b then a else b
  }
}
