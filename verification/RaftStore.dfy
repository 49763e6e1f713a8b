/** The complete persistence boundary: the write-ahead log together with the published snapshot. */
module RaftStore {
  import opened RaftTypes
  import opened WalFormat
  import opened WalLog
  import W = RaftWal
  import S = StableStore
  import L = RaftWalReplay

  /** What a node is rebuilt from. */
  datatype Recovery = Recovery(hard: HardState, snapshot: Snapshot, suffix: seq<Entry>)

  datatype Opened = Opened(wal: W.Wal, recovery: Recovery)

  /** Brings log and snapshot in line: a snapshot ahead of the log's base was published by a
      compaction that a crash cut short, and its fence is written now. */
  function Aligned(image: Snapshot, w: W.Wal): Option<W.Wal>
    requires 0 < |w.data|
  {
    if w.base > image.lastIndex then None
    else if image.lastIndex == w.base then Some(w)
    else if image.lastIndex > W.LastIndex(w) then None
    else S.Fence(w, image.lastIndex, image.lastTerm)
  }

  function Open(image: Snapshot, w: W.Wal): Option<Opened>
    requires 0 < |w.data|
  {
    var a := Aligned(image, w);
    if a.None? || a.value.base != image.lastIndex || |a.value.data| == 0 then None
    else Some(Opened(a.value, Recovery(a.value.hard, image, a.value.data[1..])))
  }

  /** Opening succeeds exactly when the snapshot lies within the log. */
  lemma OpensWithinLog(image: Snapshot, w: W.Wal)
    requires 0 < |w.data|
    ensures Open(image, w).Some? <==> w.base <= image.lastIndex <= W.LastIndex(w)
  {
  }

  /** What is recovered: the log after the snapshot when it holds the snapshot's last entry or
      starts there, and nothing when it disagrees with the snapshot. */
  function SuffixAfter(image: Snapshot, w: W.Wal): seq<Entry>
    requires 0 < |w.data| && w.base <= image.lastIndex <= W.LastIndex(w)
  {
    if image.lastIndex == w.base || w.data[image.lastIndex - w.base].term == image.lastTerm
    then w.data[image.lastIndex - w.base + 1..] else []
  }

  lemma Recovers(image: Snapshot, w: W.Wal)
    requires 0 < |w.data| && w.base <= image.lastIndex <= W.LastIndex(w)
    ensures Open(image, w).Some?
    ensures Open(image, w).value.recovery == Recovery(w.hard, image, SuffixAfter(image, w))
    ensures Open(image, w).value.wal.base == image.lastIndex && Open(image, w).value.wal.hard == w.hard
  {
    var k := image.lastIndex - w.base;
    assert w.data[k..][1..] == w.data[k + 1..];
  }

  /**
   * A crash between publishing a snapshot and writing its fence is repaired by opening: the
   * result is what finishing the compaction and then opening would have given, whether or not
   * the log holds the snapshot's last entry.
   */
  lemma InterruptedCompaction(image: Snapshot, w: W.Wal)
    requires 0 < |w.data| && w.base < image.lastIndex <= W.LastIndex(w)
    ensures var fenced := S.Fence(w, image.lastIndex, image.lastTerm);
      && fenced.Some? && 0 < |fenced.value.data|
      && Open(image, w).Some? && Open(image, w) == Open(image, fenced.value)
  {
  }

  // ----- Down to bytes -----

  /** The operation of the log store that writes a fence. */
  function FenceOp(w: W.Wal, index: nat, term: nat): L.StoreOp {
    if W.TermAt(w, index) == Some(term) then L.Compact(index) else L.Reset(index, term)
  }

  /** The record of the fence for a snapshot fits its fields. */
  ghost predicate FitsFence(wal: L.Store, snap: Snapshot)
    reads wal, wal.log
  {
    L.Storable(wal.log.nextSeq, wal.View(), FenceOp(wal.View(), snap.lastIndex, snap.lastTerm))
  }

  lemma FenceIsOp(w: W.Wal, index: nat, term: nat)
    ensures L.Apply(w, FenceOp(w, index, term)) == S.Fence(w, index, term)
  {
  }

  /**
   * A crash inside the fence itself, with any number of its bytes written, makes no difference
   * either: the medium opens, and with the snapshot gives the recovery that the whole fence or
   * none of it would have given.
   */
  lemma TornFence(crc: Checksum, s: LogState, rs: seq<Record>, w: W.Wal, image: Snapshot, torn: nat)
    requires Holds(crc, s, rs, |rs|) && L.Replay(W.EMPTY, EntriesOf(rs)) == Some(w) && torn <= RECORD_SIZE
    requires 0 < |w.data| && w.base < image.lastIndex <= W.LastIndex(w)
    requires L.Storable(s.nextSeq, w, FenceOp(w, image.lastIndex, image.lastTerm))
    ensures var staged := Stage(crc, s, L.RecordFor(w, FenceOp(w, image.lastIndex, image.lastTerm)));
      && torn <= |staged.pending|
      && var found := RecoverImage(crc, Cut(staged.durable, staged.pending, torn));
      && found.Ok?
      && var w' := L.Replay(W.EMPTY, EntriesOf(found.value));
      && w'.Some? && 0 < |w'.value.data| && Open(image, w'.value).Some? && Open(image, w'.value) == Open(image, w)
  {
    hide Stage, L.RecordFor, L.Replay, RecoverImage, Reopen, L.Storable, L.Apply, Holds;
    var op := FenceOp(w, image.lastIndex, image.lastTerm);
    FenceIsOp(w, image.lastIndex, image.lastTerm);
    InterruptedCompaction(image, w);
    L.TornWrite(crc, s, rs, w, op, torn);
  }

  /** A failed write of the model's disk is a torn write of bytes: it is kept exactly when the
      whole record got through. */
  lemma KeptIsWhole(crc: Checksum, s: LogState, rs: seq<Record>, d: S.Disk, op: L.StoreOp, torn: nat)
    requires Holds(crc, s, rs, |rs|) && L.Replay(W.EMPTY, EntriesOf(rs)) == Some(d.wal) && torn <= RECORD_SIZE
    requires L.Apply(d.wal, op).Some? && L.Storable(s.nextSeq, d.wal, op) && d.budget == 0 && d.kept == (torn == RECORD_SIZE)
    ensures var staged := Stage(crc, s, L.RecordFor(d.wal, op));
      && torn <= |staged.pending|
      && var found := RecoverImage(crc, Cut(staged.durable, staged.pending, torn));
      && found.Ok? && L.Replay(W.EMPTY, EntriesOf(found.value)) == Some(S.WriteWal(d, L.Apply(d.wal, op)).disk.wal)
  {
    hide Stage, L.RecordFor, L.Replay, RecoverImage, Reopen, L.Storable, L.Apply, Holds;
    L.TornWrite(crc, s, rs, d.wal, op, torn);
  }

  /** Opening what an earlier opening left changes nothing. */
  lemma OpensIdempotently(image: Snapshot, w: W.Wal)
    requires 0 < |w.data| && Open(image, w).Some?
    ensures 0 < |Open(image, w).value.wal.data| && Open(image, Open(image, w).value.wal) == Open(image, w)
  {
  }

  // ----- The store -----

  class Store {
    const wal: L.Store
    var image: Snapshot
    var pending: Snapshot

    ghost predicate Valid()
      reads this, wal
    {
      0 < |wal.data|
    }

    constructor (wal: L.Store, image: Snapshot)
      ensures this.wal == wal && this.image == image && pending == NO_SNAPSHOT
    {
      this.wal, this.image, this.pending := wal, image, NO_SNAPSHOT;
    }

    /** Opens a log that has been replayed against the published snapshot `image`. */
    static method OpenWith(wal: L.Store, image: Snapshot) returns (s: Store?, r: Recovery)
      requires 0 < |wal.data|
      modifies wal, wal.log, wal.log.device
      ensures s != null <==> old(Open(image, wal.View())).Some?
      ensures s != null ==> fresh(s) && s.wal == wal && s.image == image && s.pending == NO_SNAPSHOT && s.Valid()
      ensures s != null ==> old(Open(image, wal.View())) == Some(Opened(wal.View(), r))
      ensures s == null ==> wal.View() == old(wal.View())
      ensures old(wal.Durable()) && (image.lastIndex > old(wal.base) ==> old(FitsFence(wal, image))) ==> wal.Durable()
    {
      r := Recovery(wal.hard, NO_SNAPSHOT, []);
      if wal.base > image.lastIndex { return null, r; }
      if image.lastIndex > wal.base {
        if image.lastIndex > wal.base + |wal.data| - 1 { return null, r; }
        var ok;
        if wal.data[image.lastIndex - wal.base].term == image.lastTerm {
          ok := wal.CompactLog(image.lastIndex);
        } else {
          ok := wal.ResetBase(image.lastIndex, image.lastTerm);
        }
      }
      s := new Store(wal, image);
      r := Recovery(wal.hard, image, wal.data[1..]);
    }

    /** Publishes a snapshot; an older one than the published is refused. */
    method SaveSnapshot(snap: Snapshot) returns (ok: bool)
      modifies this
      ensures ok <==> snap.lastIndex >= old(image.lastIndex)
      ensures image == (if ok then snap else old(image)) && pending == (if ok then snap else old(pending))
    {
      if snap.lastIndex < image.lastIndex { return false; }
      image, pending := snap, snap;
      return true;
    }

    /** Drops the prefix the pending snapshot covers. */
    method CompactLog(index: nat) returns (ok: bool)
      requires Valid()
      modifies this, wal, wal.log, wal.log.device
      ensures ok <==> old(pending.lastIndex) == index && S.Fence(old(wal.View()), index, old(pending.lastTerm)).Some?
      ensures image == old(image) && Valid()
      ensures ok ==> Some(wal.View()) == S.Fence(old(wal.View()), index, old(pending.lastTerm)) && pending == NO_SNAPSHOT
      ensures !ok ==> wal.View() == old(wal.View()) && pending == old(pending)
      ensures old(wal.Durable()) && (ok ==> old(FitsFence(wal, pending))) ==> wal.Durable()
    {
      if pending.lastIndex != index { return false; }
      if wal.base <= index < wal.base + |wal.data| && wal.data[index - wal.base].term == pending.lastTerm {
        ok := wal.CompactLog(index);
      } else {
        ok := wal.ResetBase(index, pending.lastTerm);
      }
      if ok { pending := NO_SNAPSHOT; }
    }
  }
}
