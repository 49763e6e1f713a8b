/**
 * The write-ahead log over a device that may lose its unsynced tail.
 *
 * Appending stages records, syncing makes everything staged durable, and a crash keeps the
 * durable bytes and any prefix of the staged ones.
 */
module WalLog {
  import opened RaftTypes
  import opened WalFormat

  // ----- Recovery -----

  datatype Recovered = Recovered(records: seq<Record>, validBytes: nat)

  /** Record `i` of an image, which must decode and carry the sequence number `i + 1`. */
  function RecordAt(crc: Checksum, image: seq<Byte>, i: nat): Result<Record>
    requires (i + 1) * RECORD_SIZE <= |image|
  {
    var r := Decode(crc, image[i * RECORD_SIZE..(i + 1) * RECORD_SIZE]);
    if r.Ok? && r.value.sequence != i + 1 then Err(BadSequence) else r
  }

  /** The first `count` records of an image, or the first error among them. */
  function RecoverTo(crc: Checksum, image: seq<Byte>, count: nat): Result<seq<Record>>
    requires count * RECORD_SIZE <= |image|
  {
    if count == 0 then Ok([])
    else
      var before := RecoverTo(crc, image, count - 1);
      if before.Err? then before
      else
        var r := RecordAt(crc, image, count - 1);
        if r.Err? then Err(r.error) else Ok(before.value + [r.value])
  }

  /** The verified records of an image; an incomplete tail is ignored, a bad record is fatal. */
  function RecoverImage(crc: Checksum, image: seq<Byte>): Result<seq<Record>> {
    RecoverTo(crc, image, |image| / RECORD_SIZE)
  }

  /** The bytes of record `i`. */
  function Slot(image: seq<Byte>, i: nat): seq<Byte>
    requires (i + 1) * RECORD_SIZE <= |image|
  {
    image[i * RECORD_SIZE..(i + 1) * RECORD_SIZE]
  }

  /** What is wrong with record `i`, found in this order: its form, its checksum, its number. */
  predicate Flawed(crc: Checksum, image: seq<Byte>, i: nat, error: Error)
    requires (i + 1) * RECORD_SIZE <= |image|
  {
    var b := Slot(image, i);
    match error
    case BadFormat => !WellFormed(b)
    case BadChecksum => WellFormed(b) && !SumRight(crc, b)
    case BadSequence => WellFormed(b) && SumRight(crc, b) && !(i + 1 < U64 && b[12..20] == Bytes(i + 1, 8))
  }

  predicate Flawless(crc: Checksum, image: seq<Byte>, n: nat) {
    n * RECORD_SIZE <= |image| && forall i: nat, error :: i < n ==> !Flawed(crc, image, i, error)
  }

  lemma FlawsExactly(crc: Checksum, image: seq<Byte>, i: nat)
    requires (i + 1) * RECORD_SIZE <= |image|
    ensures forall error :: RecordAt(crc, image, i) == Err(error) <==> Flawed(crc, image, i, error)
  {
    hide Bytes, Number, Pow256, SumRight;
    var b := Slot(image, i);
    DecodesExactly(crc, b);
    Widths();
    if |b| == RECORD_SIZE { ReadsExactly(b[12..20], i + 1); }
  }

  /** Recovery succeeds exactly when no whole record has a flaw, and then returns them all; else it
      reports the flaw of the first record that has one. */
  lemma {:induction false} RecoversExactly(crc: Checksum, image: seq<Byte>, n: nat)
    requires n * RECORD_SIZE <= |image|
    ensures RecoverTo(crc, image, n).Ok? <==> Flawless(crc, image, n)
    ensures RecoverTo(crc, image, n).Ok? ==> |RecoverTo(crc, image, n).value| == n
    ensures RecoverTo(crc, image, n).Err? ==> exists i: nat :: i < n && Flawless(crc, image, i) && Flawed(crc, image, i, RecoverTo(crc, image, n).error)
  {
    hide RecordAt, Flawed;
    if n > 0 {
      RecoversExactly(crc, image, n - 1);
      FlawsExactly(crc, image, n - 1);
    }
  }

  method Recover(crc: Checksum, image: seq<Byte>) returns (r: Result<Recovered>)
    ensures var spec := RecoverImage(crc, image);
      if spec.Err? then r == Err(spec.error)
      else r == Ok(Recovered(spec.value, |image| / RECORD_SIZE * RECORD_SIZE))
    ensures r.Ok? <==> Flawless(crc, image, |image| / RECORD_SIZE)
    ensures r.Err? ==> exists i: nat :: i < |image| / RECORD_SIZE && Flawless(crc, image, i) && Flawed(crc, image, i, r.error)
  {
    hide Flawed, Flawless, Decode;
    var count := |image| / RECORD_SIZE;
    var records: seq<Record> := [];
    var i := 0;
    RecoversExactly(crc, image, count);
    while i < count
      invariant i <= count && RecoverTo(crc, image, i) == Ok(records)
    {
      var record := RecordAt(crc, image, i);
      if record.Err? {
        ErrorsStay(crc, image, i + 1, count);
        return Err(record.error);
      }
      records := records + [record.value];
      i := i + 1;
    }
    return Ok(Recovered(records, count * RECORD_SIZE));
  }

  lemma {:induction false} ErrorsStay(crc: Checksum, image: seq<Byte>, i: nat, count: nat)
    requires i <= count && count * RECORD_SIZE <= |image| && RecoverTo(crc, image, i).Err?
    ensures RecoverTo(crc, image, count) == RecoverTo(crc, image, i)
    decreases count - i
  {
    hide Decode;
    if i < count { ErrorsStay(crc, image, i, count - 1); }
  }

  // ----- The device -----

  class MemoryDevice {
    var durable: seq<Byte>
    var pending: seq<Byte>

    constructor (image: seq<Byte>)
      ensures durable == image && pending == []
    {
      durable, pending := image, [];
    }

    method Append(p: seq<Byte>)
      modifies this`pending
      ensures pending == old(pending) + p
    {
      pending := pending + p;
    }

    method Sync()
      modifies this
      ensures durable == old(durable) + old(pending) && pending == []
    {
      durable, pending := durable + pending, [];
    }

    /** Shortens the durable bytes; a size outside them is refused and changes nothing. */
    method TruncateDurable(size: int) returns (ok: bool)
      modifies this`durable
      ensures ok <==> 0 <= size <= old(|durable|)
      ensures durable == if ok then old(durable)[..size] else old(durable)
    {
      if size < 0 || size > |durable| { return false; }
      durable := durable[..size];
      return true;
    }

    /** The medium after a power loss that let the first `torn` staged bytes through. */
    method Crash(torn: int) returns (after: MemoryDevice?)
      ensures after != null <==> 0 <= torn <= |pending|
      ensures after != null ==> fresh(after) && after.durable == Cut(durable, pending, torn) && after.pending == []
    {
      if torn < 0 || torn > |pending| { return null; }
      after := new MemoryDevice(durable + pending[..torn]);
    }
  }

  function Cut(durable: seq<Byte>, pending: seq<Byte>, torn: nat): seq<Byte>
    requires torn <= |pending|
  {
    durable + pending[..torn]
  }

  // ----- Images of records -----

  function Image(crc: Checksum, rs: seq<Record>): (b: seq<Byte>)
    ensures |b| == |rs| * RECORD_SIZE
  {
    if rs == [] then [] else Image(crc, rs[..|rs| - 1]) + Encode(crc, rs[|rs| - 1])
  }

  /** Records numbered from one on, each fitting its fields. */
  predicate Contiguous(rs: seq<Record>) {
    forall i :: 0 <= i < |rs| ==> rs[i].sequence == i + 1 && Fits(rs[i])
  }

  lemma {:induction false} ImageAt(crc: Checksum, rs: seq<Record>, i: nat)
    requires i < |rs|
    ensures (i + 1) * RECORD_SIZE <= |Image(crc, rs)|
    ensures Image(crc, rs)[i * RECORD_SIZE..(i + 1) * RECORD_SIZE] == Encode(crc, rs[i])
  {
    hide Encode;
    var k := |rs| - 1;
    if i < k {
      ImageAt(crc, rs[..k], i);
      assert Image(crc, rs)[i * RECORD_SIZE..(i + 1) * RECORD_SIZE] == Image(crc, rs[..k])[i * RECORD_SIZE..(i + 1) * RECORD_SIZE];
    }
  }

  lemma {:induction false} ImageSplit(crc: Checksum, rs: seq<Record>, k: nat)
    requires k <= |rs|
    ensures Image(crc, rs) == Image(crc, rs[..k]) + Image(crc, rs[k..])
  {
    hide Encode;
    if k == |rs| {
      assert rs[..k] == rs && rs[k..] == [];
    } else {
      var n := |rs| - 1;
      ImageSplit(crc, rs[..n], k);
      assert rs[..n][..k] == rs[..k];
      assert rs[k..][..|rs[k..]| - 1] == rs[..n][k..];
    }
  }

  /** Recovery of any cut of an image: exactly the records that lie wholly inside it. */
  lemma {:induction false} RecoverCut(crc: Checksum, rs: seq<Record>, cut: nat, count: nat)
    requires Contiguous(rs) && cut <= |Image(crc, rs)| && count * RECORD_SIZE <= cut
    ensures count <= |rs| && RecoverTo(crc, Image(crc, rs)[..cut], count) == Ok(rs[..count])
    decreases count
  {
    hide Decode, Encode, Image, Fits;
    if count > 0 {
      var i := count - 1;
      RecoverCut(crc, rs, cut, i);
      ImageAt(crc, rs, i);
      assert Image(crc, rs)[..cut] == Image(crc, rs)[0..cut];
      SliceOf(Image(crc, rs), 0, cut, i * RECORD_SIZE, (i + 1) * RECORD_SIZE);
      RoundTrip(crc, rs[i]);
      assert rs[..count] == rs[..i] + [rs[i]];
    }
  }

  // ----- The log -----

  /** The bytes of a log and the sequence number its next record gets. */
  datatype LogState = LogState(durable: seq<Byte>, pending: seq<Byte>, nextSeq: nat)

  function Stage(crc: Checksum, s: LogState, e: StoredEntry): LogState {
    s.(pending := s.pending + Encode(crc, Record(s.nextSeq, e)), nextSeq := s.nextSeq + 1)
  }

  function StageAll(crc: Checksum, s: LogState, es: seq<StoredEntry>): LogState
    decreases |es|
  {
    if es == [] then s else StageAll(crc, Stage(crc, s, es[0]), es[1..])
  }

  function Flush(s: LogState): LogState {
    s.(durable := s.durable + s.pending, pending := [])
  }

  function NextSequence(rs: seq<Record>): nat {
    if rs == [] then 1 else rs[|rs| - 1].sequence + 1
  }

  /** Opening drops a torn tail, so that a later record cannot straddle it. */
  function Reopen(crc: Checksum, image: seq<Byte>): Result<LogState> {
    var rs := RecoverImage(crc, image);
    if rs.Err? then Err(rs.error) else Ok(LogState(image[..|image| / RECORD_SIZE * RECORD_SIZE], [], NextSequence(rs.value)))
  }

  class Log {
    const crc: Checksum
    const device: MemoryDevice
    var nextSeq: nat

    ghost function View(): LogState
      reads this, device
    {
      LogState(device.durable, device.pending, nextSeq)
    }

    constructor (crc: Checksum, device: MemoryDevice, next: nat)
      ensures this.crc == crc && this.device == device && nextSeq == next
    {
      this.crc, this.device, this.nextSeq := crc, device, next;
    }

    static method Open(crc: Checksum, device: MemoryDevice) returns (log: Log?, r: Result<seq<Record>>)
      requires device.pending == []
      modifies device
      ensures r == old(RecoverImage(crc, device.durable)) && (log != null <==> r.Ok?)
      ensures log != null ==> fresh(log) && log.crc == crc && log.device == device && Ok(log.View()) == old(Reopen(crc, device.durable))
      ensures log == null ==> device.durable == old(device.durable) && device.pending == []
    {
      var found := Recover(crc, device.durable);
      if found.Err? { return null, Err(found.error); }
      if found.value.validBytes != |device.durable| {
        var ok := device.TruncateDurable(found.value.validBytes);
      }
      var records := found.value.records;
      var next := 1;
      if |records| > 0 { next := records[|records| - 1].sequence + 1; }
      assert device.durable == old(device.durable)[..found.value.validBytes];
      log := new Log(crc, device, next);
      r := Ok(records);
    }

    /** Stages entries until the context is cancelled, which happens after `allowed` of them. */
    method Append(entries: seq<StoredEntry>, allowed: nat) returns (ok: bool)
      modifies this`nextSeq, device`pending
      ensures ok <==> |entries| <= allowed
      ensures View() == StageAll(crc, old(View()), if ok then entries else entries[..allowed])
    {
      var scratch := new Byte[RECORD_SIZE](_ => 0);
      var i := 0;
      while i < |entries|
        invariant i <= |entries| && i <= allowed && View() == StageAll(crc, old(View()), entries[..i])
        modifies this`nextSeq, device`pending, scratch
      {
        if i >= allowed { return false; }
        EncodeInto(crc, scratch, Record(nextSeq, entries[i]));
        device.Append(scratch[..]);
        nextSeq := nextSeq + 1;
        StageOneMore(crc, old(View()), entries, i);
        i := i + 1;
      }
      assert entries[..i] == entries;
      return true;
    }

    method Sync(cancelled: bool) returns (ok: bool)
      modifies device
      ensures ok == !cancelled && View() == if ok then Flush(old(View())) else old(View())
    {
      if cancelled { return false; }
      device.Sync();
      return true;
    }
  }

  lemma {:induction false} StageOneMore(crc: Checksum, s: LogState, es: seq<StoredEntry>, i: nat)
    requires i < |es|
    ensures StageAll(crc, s, es[..i + 1]) == Stage(crc, StageAll(crc, s, es[..i]), es[i])
    decreases i
  {
    hide Encode;
    if i == 0 {
      assert es[..1][1..] == [];
    } else {
      StageOneMore(crc, Stage(crc, s, es[0]), es[1..], i - 1);
      assert es[..i + 1][1..] == es[1..][..i] && es[..i][1..] == es[1..][..i - 1];
    }
  }

  // ----- What survives -----

  /** The log holds `rs`, of which the first `k` are durable. */
  predicate Holds(crc: Checksum, s: LogState, rs: seq<Record>, k: nat) {
    && k <= |rs| && Contiguous(rs) && s.nextSeq == |rs| + 1
    && s.durable == Image(crc, rs[..k]) && s.pending == Image(crc, rs[k..])
  }

  lemma StageHolds(crc: Checksum, s: LogState, rs: seq<Record>, k: nat, e: StoredEntry)
    requires Holds(crc, s, rs, k) && Fits(Record(s.nextSeq, e))
    ensures Holds(crc, Stage(crc, s, e), rs + [Record(s.nextSeq, e)], k)
  {
    hide Encode;
    var r := Record(s.nextSeq, e);
    var longer := rs + [r];
    assert longer[..k] == rs[..k];
    assert longer[k..][..|longer[k..]| - 1] == rs[k..];
  }

  lemma FlushHolds(crc: Checksum, s: LogState, rs: seq<Record>, k: nat)
    requires Holds(crc, s, rs, k)
    ensures Holds(crc, Flush(s), rs, |rs|)
  {
    hide Encode;
    ImageSplit(crc, rs, k);
    assert rs[..|rs|] == rs && rs[|rs|..] == [];
  }

  /** The number of records wholly inside a cut that keeps `torn` staged bytes. */
  function Survivors(k: nat, torn: nat): nat { k + torn / RECORD_SIZE }

  /**
   * After a crash at any point and with any torn tail, recovery succeeds and returns exactly the
   * records that lie wholly inside the image, among them every synced one; the reopened log
   * holds just these and continues their numbering.
   */
  lemma CrashCut(crc: Checksum, s: LogState, rs: seq<Record>, k: nat, torn: nat)
    requires Holds(crc, s, rs, k) && torn <= |s.pending|
    ensures var m, image := Survivors(k, torn), Cut(s.durable, s.pending, torn);
      && k <= m <= |rs| && RecoverImage(crc, image) == Ok(rs[..m])
      && Reopen(crc, image).Ok? && Holds(crc, Reopen(crc, image).value, rs[..m], m)
  {
    hide Encode, Image, RecoverTo;
    var image, all, m := Cut(s.durable, s.pending, torn), Image(crc, rs), Survivors(k, torn);
    ImageSplit(crc, rs, k);
    var cut := |image|;
    assert cut == k * RECORD_SIZE + torn && cut / RECORD_SIZE == m;
    assert image == all[..cut];
    RecoverCut(crc, rs, cut, m);
    ImageSplit(crc, rs, m);
    assert image[..m * RECORD_SIZE] == all[..m * RECORD_SIZE] == Image(crc, rs[..m]);
    assert rs[..m][..m] == rs[..m] && rs[..m][m..] == [];
    NoImage(crc);
  }

  lemma NoImage(crc: Checksum)
    ensures Image(crc, []) == []
  {
  }

  // ----- Whole histories -----

  datatype Op = Write(e: StoredEntry) | Durable | PowerLoss(torn: nat)

  /** The entries a log stands for, and how many of them are durable. */
  datatype Ledger = Ledger(entries: seq<StoredEntry>, durable: nat)

  predicate Possible(crc: Checksum, s: LogState, op: Op) {
    match op
    case Write(e) => Fits(Record(s.nextSeq, e))
    case Durable => true
    case PowerLoss(torn) => torn <= |s.pending|
  }

  /** A crash is followed by reopening the medium. */
  function Do(crc: Checksum, s: LogState, op: Op): Result<LogState>
    requires Possible(crc, s, op)
  {
    match op
    case Write(e) => Ok(Stage(crc, s, e))
    case Durable => Ok(Flush(s))
    case PowerLoss(torn) => Reopen(crc, Cut(s.durable, s.pending, torn))
  }

  function Means(l: Ledger, op: Op): Ledger
    requires op.PowerLoss? ==> Survivors(l.durable, op.torn) <= |l.entries|
  {
    match op
    case Write(e) => l.(entries := l.entries + [e])
    case Durable => l.(durable := |l.entries|)
    case PowerLoss(torn) => Ledger(l.entries[..Survivors(l.durable, torn)], Survivors(l.durable, torn))
  }

  function EntriesOf(rs: seq<Record>): seq<StoredEntry> {
    seq(|rs|, i requires 0 <= i < |rs| => rs[i].entry)
  }

  ghost predicate StandsFor(crc: Checksum, s: LogState, l: Ledger) {
    exists rs :: Holds(crc, s, rs, l.durable) && l.entries == EntriesOf(rs)
  }

  /** Every operation, including a crash with any torn tail, does to the log what it does to the
      ledger; in particular no recovery ever fails. */
  lemma OpRefines(crc: Checksum, s: LogState, l: Ledger, op: Op)
    requires StandsFor(crc, s, l) && Possible(crc, s, op)
    ensures op.PowerLoss? ==> Survivors(l.durable, op.torn) <= |l.entries|
    ensures Do(crc, s, op).Ok? && StandsFor(crc, Do(crc, s, op).value, Means(l, op))
  {
    hide Encode, Image, Reopen, Fits;
    var rs :| Holds(crc, s, rs, l.durable) && l.entries == EntriesOf(rs);
    match op {
      case Write(e) =>
        StageHolds(crc, s, rs, l.durable, e);
        assert EntriesOf(rs + [Record(s.nextSeq, e)]) == l.entries + [e];
      case Durable =>
        FlushHolds(crc, s, rs, l.durable);
      case PowerLoss(torn) =>
        CrashCut(crc, s, rs, l.durable, torn);
        var m := Survivors(l.durable, torn);
        assert EntriesOf(rs[..m]) == l.entries[..m];
    }
  }

  /** Each operation of a history is possible when its turn comes. */
  predicate PossibleAll(crc: Checksum, s: LogState, ops: seq<Op>)
    decreases |ops|
  {
    ops != [] ==>
      && Possible(crc, s, ops[0])
      && (Do(crc, s, ops[0]).Ok? ==> PossibleAll(crc, Do(crc, s, ops[0]).value, ops[1..]))
  }

  function DoAll(crc: Checksum, s: LogState, ops: seq<Op>): Result<LogState>
    requires PossibleAll(crc, s, ops)
    decreases |ops|
  {
    if ops == [] then Ok(s)
    else
      var t := Do(crc, s, ops[0]);
      if t.Err? then t else DoAll(crc, t.value, ops[1..])
  }

  ghost predicate MeansAll(l: Ledger, ops: seq<Op>, l': Ledger)
    decreases |ops|
  {
    if ops == [] then l' == l
    else (ops[0].PowerLoss? ==> Survivors(l.durable, ops[0].torn) <= |l.entries|) && MeansAll(Means(l, ops[0]), ops[1..], l')
  }

  /** Over any history of writes, syncs and crashes the log is its ledger, and every recovery on
      the way succeeds. */
  lemma {:induction false} HistoryRefines(crc: Checksum, s: LogState, l: Ledger, ops: seq<Op>) returns (l': Ledger)
    requires StandsFor(crc, s, l) && PossibleAll(crc, s, ops)
    ensures DoAll(crc, s, ops).Ok? && MeansAll(l, ops, l') && StandsFor(crc, DoAll(crc, s, ops).value, l')
    decreases |ops|
  {
    hide StandsFor, Possible, Do, Means;
    if ops == [] {
      l' := l;
    } else {
      OpRefines(crc, s, l, ops[0]);
      l' := HistoryRefines(crc, Do(crc, s, ops[0]).value, Means(l, ops[0]), ops[1..]);
    }
  }
}
