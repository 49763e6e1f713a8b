/**
 * The consensus store over the write-ahead log: every operation appends one record, and opening
 * the log replays the records.
 */
module RaftWalReplay {
  import opened RaftTypes
  import opened WalFormat
  import opened WalLog
  import W = RaftWal

  // ----- Records -----

  /** Index zero marks hard state, the two highest indexes mark the fences. */
  const COMPACT: nat := U64 - 1
  const RESET: nat := U64 - 2

  function KindCode(k: EntryKind): nat {
    match k case Normal => 0 case JointConfig => 1 case FinalConfig => 2 case Noop => 3
  }

  function KindOf(code: nat): Option<EntryKind> {
    if code == 0 then Some(Normal) else if code == 1 then Some(JointConfig)
    else if code == 2 then Some(FinalConfig) else if code == 3 then Some(Noop) else None
  }

  function OpCode(op: CommandOp): nat {
    match op case Legacy => 0 case Put => 1 case Delete => 2
  }

  function OpOf(code: nat): Option<CommandOp> {
    if code == 0 then Some(Legacy) else if code == 1 then Some(CommandOp.Put) else if code == 2 then Some(Delete) else None
  }

  function HardRecord(h: HardState): StoredEntry {
    StoredEntry(0, h.term, h.votedFor, 0, h.commit, 0, 0, 0, 0, 0, 0)
  }

  function EntryRecord(index: nat, e: Entry): StoredEntry {
    StoredEntry(index, e.term, e.command, KindCode(e.kind), e.oldVoters, e.newVoters, OpCode(e.operation),
                e.clientId, e.requestId, e.key, e.value)
  }

  function FenceRecord(mark: nat, index: nat, term: nat): StoredEntry {
    StoredEntry(mark, index, term, 0, 0, 0, 0, 0, 0, 0, 0)
  }

  function EntryOf(e: StoredEntry): Option<Entry> {
    if KindOf(e.kind).None? || OpOf(e.operation).None? then None
    else Some(Entry(e.term, e.command, KindOf(e.kind).value, e.oldVoters, e.newVoters, OpOf(e.operation).value,
                    e.clientId, e.requestId, e.key, e.value))
  }

  // ----- Replay -----

  /** What one record does to the store being rebuilt; a record no store wrote is refused. */
  function ReplayRecord(w: W.Wal, e: StoredEntry): Option<W.Wal> {
    if e.index == RESET then
      if e.term < w.base then None else Some(w.(base := e.term, data := [ZERO_ENTRY.(term := e.command)]))
    else if e.index == COMPACT then
      if e.term < w.base || e.term >= w.base + |w.data| then None
      else Some(w.(base := e.term, data := w.data[e.term - w.base..]))
    else if e.index == 0 then
      var h := HardState(e.term, e.command % U32, e.oldVoters);
      if W.Regresses(w.hard, h) then None else Some(w.(hard := h))
    else if e.index <= w.base then Some(w)
    else if e.index - w.base > |w.data| || EntryOf(e).None? then None
    else Some(w.(data := w.data[..e.index - w.base] + [EntryOf(e).value]))
  }

  function Replay(w: W.Wal, es: seq<StoredEntry>): Option<W.Wal>
    decreases |es|
  {
    if es == [] then Some(w)
    else
      var before := Replay(w, es[..|es| - 1]);
      if before.None? then None else ReplayRecord(before.value, es[|es| - 1])
  }

  lemma ReplayOneMore(w: W.Wal, es: seq<StoredEntry>, e: StoredEntry)
    ensures Replay(w, es + [e]) == if Replay(w, es).None? then None else ReplayRecord(Replay(w, es).value, e)
  {
    assert (es + [e])[..|es + [e]| - 1] == es;
  }

  // ----- Operations -----

  datatype StoreOp = SaveHard(h: HardState) | AppendEntry(index: nat, e: Entry) | Compact(index: nat) | Reset(index: nat, term: nat)

  function Apply(w: W.Wal, op: StoreOp): Option<W.Wal> {
    match op
    case SaveHard(h) => W.SaveHardState(w, h)
    case AppendEntry(index, e) => W.Append(w, index, e)
    case Compact(index) => W.CompactLog(w, index)
    case Reset(index, term) => W.ResetBase(w, index, term)
  }

  function RecordFor(w: W.Wal, op: StoreOp): StoredEntry {
    match op
    case SaveHard(h) => HardRecord(h)
    case AppendEntry(index, e) => EntryRecord(index, e)
    case Compact(index) => FenceRecord(COMPACT, index, if w.base <= index < w.base + |w.data| then w.data[index - w.base].term else 0)
    case Reset(index, term) => FenceRecord(RESET, index, term)
  }

  /** Node identifiers are 32 bits wide, and no entry is stored at an index that marks a fence. */
  predicate Plain(op: StoreOp) {
    match op
    case SaveHard(h) => h.votedFor < U32
    case AppendEntry(index, _) => index < RESET
    case _ => true
  }

  lemma EntryRoundTrip(index: nat, e: Entry)
    ensures EntryOf(EntryRecord(index, e)) == Some(e)
  {
  }

  /** Replaying the record of an operation that succeeded does what the operation did. */
  lemma ReplaysOp(w: W.Wal, op: StoreOp)
    requires Apply(w, op).Some? && Plain(op)
    ensures ReplayRecord(w, RecordFor(w, op)) == Apply(w, op)
  {
    if op.AppendEntry? { EntryRoundTrip(op.index, op.e); }
  }

  /** The highest indexes are taken for fences: an entry stored at one of them is not rebuilt,
      except when it repeats the last entry and the fence it is taken for changes nothing. */
  lemma MarksAreMisread(w: W.Wal, index: nat, e: Entry)
    requires W.Append(w, index, e).Some? && index < U64
    ensures ReplayRecord(w, EntryRecord(index, e)) == W.Append(w, index, e) <==>
      index < RESET || (index == COMPACT && e.term == w.base && W.Append(w, index, e) == Some(w))
  {
    EntryRoundTrip(index, e);
    var after := W.Append(w, index, e).value;
    assert |after.data| >= 2;
    if index == COMPACT && w.base <= e.term < w.base + |w.data| {
      if e.term == w.base { assert w.data[0..] == w.data; }
    }
  }

  // ----- Whole histories -----

  predicate AllSucceed(w: W.Wal, ops: seq<StoreOp>)
    decreases |ops|
  {
    ops != [] ==>
      && AllSucceed(w, ops[..|ops| - 1]) && Plain(ops[|ops| - 1])
      && Apply(After(w, ops[..|ops| - 1]), ops[|ops| - 1]).Some?
  }

  function After(w: W.Wal, ops: seq<StoreOp>): W.Wal
    decreases |ops|
  {
    if ops == [] then w
    else
      var before := After(w, ops[..|ops| - 1]);
      var r := Apply(before, ops[|ops| - 1]);
      if r.Some? then r.value else before
  }

  function Records(w: W.Wal, ops: seq<StoreOp>): seq<StoredEntry>
    decreases |ops|
  {
    if ops == [] then []
    else Records(w, ops[..|ops| - 1]) + [RecordFor(After(w, ops[..|ops| - 1]), ops[|ops| - 1])]
  }

  /** After any error-free sequence of operations, including ones that overwrite a suffix, replay
      rebuilds exactly the hard state, base and data held in memory. */
  lemma {:induction false} ReplayRefines(ops: seq<StoreOp>)
    requires AllSucceed(W.EMPTY, ops)
    ensures Replay(W.EMPTY, Records(W.EMPTY, ops)) == Some(After(W.EMPTY, ops))
  {
    hide ReplayRecord, RecordFor, Apply;
    if ops != [] {
      var k := |ops| - 1;
      ReplayRefines(ops[..k]);
      ReplaysOp(After(W.EMPTY, ops[..k]), ops[k]);
      ReplayOneMore(W.EMPTY, Records(W.EMPTY, ops[..k]), RecordFor(After(W.EMPTY, ops[..k]), ops[k]));
    }
  }

  // ----- The store -----

  class Store {
    const log: Log
    var hard: HardState
    var data: seq<Entry>
    var base: nat
    ghost var records: seq<Record>

    ghost function View(): W.Wal
      reads this
    {
      W.Wal(hard, base, data)
    }

    /** Every record is durable, and replaying them all gives what memory holds. */
    ghost predicate Durable()
      reads this, log, log.device
    {
      && Holds(log.crc, log.View(), records, |records|)
      && Replay(W.EMPTY, EntriesOf(records)) == Some(View())
    }

    constructor (log: Log, w: W.Wal, ghost records: seq<Record>)
      ensures this.log == log && View() == w && this.records == records
    {
      this.log, this.hard, this.data, this.base, this.records := log, w.hard, w.data, w.base, records;
    }

    /** Replays every record of a device; fails on bad records and on records no store wrote. */
    static method Open(crc: Checksum, device: MemoryDevice) returns (s: Store?)
      requires device.pending == []
      modifies device
      ensures var rs := old(RecoverImage(crc, device.durable));
        && (s != null <==> rs.Ok? && Replay(W.EMPTY, EntriesOf(rs.value)).Some?)
        && (s != null ==> fresh(s) && fresh(s.log) && s.log.device == device && s.log.crc == crc && s.records == rs.value)
        && (s != null ==> Replay(W.EMPTY, EntriesOf(rs.value)) == Some(s.View()))
        && (s != null ==> Ok(s.log.View()) == old(Reopen(crc, device.durable)))
    {
      var log, found := Log.Open(crc, device);
      if log == null { return null; }
      var rs := found.value;
      var w := W.EMPTY;
      var i := 0;
      while i < |rs|
        invariant i <= |rs| && Replay(W.EMPTY, EntriesOf(rs[..i])) == Some(w)
        invariant Ok(log.View()) == old(Reopen(crc, device.durable))
      {
        var next := ReplayRecord(w, rs[i].entry);
        OneMore(rs, i);
        if next.None? {
          Refused(rs, i + 1, |rs|);
          assert rs[..|rs|] == rs;
          return null;
        }
        w := next.value;
        i := i + 1;
      }
      assert rs[..i] == rs;
      s := new Store(log, w, rs);
    }

    /** Appends one record and makes it durable. */
    method Write(e: StoredEntry)
      modifies this`records, log, log.device
      ensures unchanged(this`hard, this`data, this`base)
      ensures records == old(records) + [Record(old(log.nextSeq), e)]
      ensures log.View() == Flush(Stage(log.crc, old(log.View()), e))
    {
      var ok := log.Append([e], 1);
      StageSingle(log.crc, old(log.View()), e);
      var synced := log.Sync(false);
      records := records + [Record(old(log.nextSeq), e)];
    }

    method SaveHardState(h: HardState) returns (ok: bool)
      modifies this, log, log.device
      ensures ok <==> W.SaveHardState(old(View()), h).Some?
      ensures View() == if ok then W.SaveHardState(old(View()), h).value else old(View())
      ensures old(Durable()) && (ok ==> Storable(old(log.nextSeq), old(View()), SaveHard(h))) ==> Durable()
    {
      if h.term < hard.term || h.commit < hard.commit || (h.term == hard.term && hard.votedFor != 0 && h.votedFor != hard.votedFor) {
        return false;
      }
      ghost var op := SaveHard(h);
      Write(HardRecord(h));
      hard := h;
      if old(Durable()) && Storable(old(log.nextSeq), old(View()), op) { StaysDurable(log.crc, old(log.View()), old(records), old(View()), op); }
      return true;
    }

    method Append(index: nat, e: Entry) returns (ok: bool)
      modifies this, log, log.device
      ensures ok <==> W.Append(old(View()), index, e).Some?
      ensures View() == if ok then W.Append(old(View()), index, e).value else old(View())
      ensures old(Durable()) && (ok ==> Storable(old(log.nextSeq), old(View()), AppendEntry(index, e))) ==> Durable()
    {
      if index <= base || index > base + |data| { return false; }
      ghost var op := AppendEntry(index, e);
      Write(EntryRecord(index, e));
      var offset := index - base;
      if offset < |data| { data := data[..offset]; }
      data := data + [e];
      assert old(data)[..|old(data)|] == old(data);
      if old(Durable()) && Storable(old(log.nextSeq), old(View()), op) { StaysDurable(log.crc, old(log.View()), old(records), old(View()), op); }
      return true;
    }

    method CompactLog(index: nat) returns (ok: bool)
      modifies this, log, log.device
      ensures ok <==> W.CompactLog(old(View()), index).Some?
      ensures View() == if ok then W.CompactLog(old(View()), index).value else old(View())
      ensures old(Durable()) && (ok ==> Storable(old(log.nextSeq), old(View()), Compact(index))) ==> Durable()
    {
      if index <= base || index >= base + |data| { return false; }
      ghost var op := Compact(index);
      var offset := index - base;
      Write(FenceRecord(COMPACT, index, data[offset].term));
      data, base := data[offset..], index;
      if old(Durable()) && Storable(old(log.nextSeq), old(View()), op) { StaysDurable(log.crc, old(log.View()), old(records), old(View()), op); }
      return true;
    }

    /** Installs a base even when the log has no matching entry. */
    method ResetBase(index: nat, term: nat) returns (ok: bool)
      modifies this, log, log.device
      ensures ok <==> W.ResetBase(old(View()), index, term).Some?
      ensures View() == if ok then W.ResetBase(old(View()), index, term).value else old(View())
      ensures old(Durable()) && (ok ==> Storable(old(log.nextSeq), old(View()), Reset(index, term))) ==> Durable()
    {
      if index < base { return false; }
      ghost var op := Reset(index, term);
      Write(FenceRecord(RESET, index, term));
      base, data := index, [ZERO_ENTRY.(term := term)];
      if old(Durable()) && Storable(old(log.nextSeq), old(View()), op) { StaysDurable(log.crc, old(log.View()), old(records), old(View()), op); }
      return true;
    }
  }

  /**
   * Opening the medium of a durable store gives the store again: the same hard state, base and
   * data, and the same place to append.
   */
  lemma OpensAgain(s: Store)
    requires s.Durable()
    ensures s.log.device.pending == []
    ensures RecoverImage(s.log.crc, s.log.device.durable) == Ok(s.records)
    ensures Replay(W.EMPTY, EntriesOf(s.records)) == Some(s.View())
    ensures Reopen(s.log.crc, s.log.device.durable) == Ok(s.log.View())
  {
    hide Encode, Replay, Image;
    var rs := s.records;
    assert rs[|rs|..] == [] && rs[..|rs|] == rs;
    NoImage(s.log.crc);
    CrashCut(s.log.crc, s.log.View(), rs, |rs|, 0);
    assert Cut(s.log.device.durable, [], 0) == s.log.device.durable;
  }

  /** The operation's record fits its fields. */
  predicate Storable(nextSeq: nat, w: W.Wal, op: StoreOp) {
    Plain(op) && Fits(Record(nextSeq, RecordFor(w, op)))
  }

  lemma StageSingle(crc: Checksum, s: LogState, e: StoredEntry)
    ensures StageAll(crc, s, [e]) == Stage(crc, s, e)
  {
    assert [e][1..] == [];
  }

  lemma OneMore(rs: seq<Record>, i: nat)
    requires i < |rs|
    ensures Replay(W.EMPTY, EntriesOf(rs[..i + 1])) ==
      if Replay(W.EMPTY, EntriesOf(rs[..i])).None? then None else ReplayRecord(Replay(W.EMPTY, EntriesOf(rs[..i])).value, rs[i].entry)
  {
    hide ReplayRecord;
    assert EntriesOf(rs[..i + 1]) == EntriesOf(rs[..i]) + [rs[i].entry];
    ReplayOneMore(W.EMPTY, EntriesOf(rs[..i]), rs[i].entry);
  }

  lemma {:induction false} Refused(rs: seq<Record>, i: nat, n: nat)
    requires i <= n <= |rs| && Replay(W.EMPTY, EntriesOf(rs[..i])).None?
    ensures Replay(W.EMPTY, EntriesOf(rs[..n])).None?
    decreases n - i
  {
    hide ReplayRecord, Replay;
    if i < n {
      OneMore(rs, i);
      Refused(rs, i + 1, n);
    }
  }

  lemma StaysDurable(crc: Checksum, s: LogState, rs: seq<Record>, w: W.Wal, op: StoreOp)
    requires Holds(crc, s, rs, |rs|) && Replay(W.EMPTY, EntriesOf(rs)) == Some(w)
    requires Apply(w, op).Some? && Storable(s.nextSeq, w, op)
    ensures var longer := rs + [Record(s.nextSeq, RecordFor(w, op))];
      && Holds(crc, Flush(Stage(crc, s, RecordFor(w, op))), longer, |longer|)
      && Replay(W.EMPTY, EntriesOf(longer)) == Apply(w, op)
  {
    hide Encode, Image, ReplayRecord, RecordFor, Apply, Replay;
    var e := RecordFor(w, op);
    StageHolds(crc, s, rs, |rs|, e);
    FlushHolds(crc, Stage(crc, s, e), rs + [Record(s.nextSeq, e)], |rs|);
    ReplaysOp(w, op);
    assert EntriesOf(rs + [Record(s.nextSeq, e)]) == EntriesOf(rs) + [e];
    ReplayOneMore(W.EMPTY, EntriesOf(rs), e);
  }

  /**
   * A power loss while the record of an operation is on its way lets any number of its bytes
   * through.  The medium opens again all the same, to the state before the operation when the
   * record is torn and to the state after it when all of it got through; there is nothing in
   * between.
   */
  lemma TornWrite(crc: Checksum, s: LogState, rs: seq<Record>, w: W.Wal, op: StoreOp, torn: nat)
    requires Holds(crc, s, rs, |rs|) && Replay(W.EMPTY, EntriesOf(rs)) == Some(w)
    requires Apply(w, op).Some? && Storable(s.nextSeq, w, op) && torn <= RECORD_SIZE
    ensures var staged := Stage(crc, s, RecordFor(w, op));
      && torn <= |staged.pending|
      && var image := Cut(staged.durable, staged.pending, torn);
      && var found := RecoverImage(crc, image);
      && found.Ok? && Reopen(crc, image).Ok? && Holds(crc, Reopen(crc, image).value, found.value, |found.value|)
      && Replay(W.EMPTY, EntriesOf(found.value)) == if torn < RECORD_SIZE then Some(w) else Apply(w, op)
  {
    hide Encode, Image, RecordFor, Apply, Replay, RecoverImage, Reopen, Fits;
    var e := RecordFor(w, op);
    var staged, longer := Stage(crc, s, e), rs + [Record(s.nextSeq, e)];
    StageHolds(crc, s, rs, |rs|, e);
    assert rs[|rs|..] == [] && longer[..|rs|] == rs && longer[..|longer|] == longer;
    NoImage(crc);
    StaysDurable(crc, s, rs, w, op);
    CrashCut(crc, staged, longer, |rs|, torn);
    assert torn / RECORD_SIZE == if torn < RECORD_SIZE then 0 else 1;
  }
}
