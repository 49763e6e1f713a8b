/** The logical content of the write-ahead log store and what each operation makes of it. */
module RaftWal {
  import opened RaftTypes

  /** `data[0]` stands for the entry at `base`; `data[k]` is the entry at index `base + k`. */
  datatype Wal = Wal(hard: HardState, base: nat, data: seq<Entry>)

  const EMPTY := Wal(HardState(0, 0, 0), 0, [ZERO_ENTRY])

  function LastIndex(w: Wal): nat
    requires 0 < |w.data|
  {
    w.base + |w.data| - 1
  }

  /** Terms and commit indexes never go back, and a vote is never changed within its term. */
  predicate Regresses(before: HardState, after: HardState) {
    || after.term < before.term || after.commit < before.commit
    || (after.term == before.term && before.votedFor != 0 && after.votedFor != before.votedFor)
  }

  function SaveHardState(w: Wal, h: HardState): Option<Wal> {
    if Regresses(w.hard, h) then None else Some(w.(hard := h))
  }

  function Append(w: Wal, index: nat, e: Entry): Option<Wal> {
    if index <= w.base || index > w.base + |w.data| then None
    else Some(w.(data := w.data[..index - w.base] + [e]))
  }

  function TermAt(w: Wal, index: nat): Option<nat> {
    if index < w.base || index >= w.base + |w.data| then None else Some(w.data[index - w.base].term)
  }

  function ResetBase(w: Wal, index: nat, term: nat): Option<Wal> {
    if index < w.base then None else Some(w.(base := index, data := [ZERO_ENTRY.(term := term)]))
  }

  function CompactLog(w: Wal, index: nat): Option<Wal> {
    if index <= w.base || index >= w.base + |w.data| then None
    else Some(w.(base := index, data := w.data[index - w.base..]))
  }
}

/**
 * The stable store a node writes to: the write-ahead log, the snapshot image, and a plan for
 * how many more writes succeed.  The write that fails either reached the medium (`kept`) or
 * did not; the node cannot tell.
 */
module StableStore {
  import opened RaftTypes
  import RaftWal

  datatype Disk = Disk(wal: RaftWal.Wal, image: Snapshot, pending: Snapshot, budget: nat, kept: bool)

  datatype Attempt = Attempt(disk: Disk, ok: bool)

  const FRESH := Disk(RaftWal.EMPTY, NO_SNAPSHOT, NO_SNAPSHOT, 0, false)

  function Write(d: Disk, after: Disk): Attempt {
    if d.budget > 0 then Attempt(after.(budget := d.budget - 1), true)
    else Attempt(if d.kept then after else d, false)
  }

  function WriteWal(d: Disk, w: Option<RaftWal.Wal>): Attempt {
    if w.None? then Attempt(d, false) else Write(d, d.(wal := w.value))
  }

  function SaveHardState(d: Disk, h: HardState): Attempt {
    WriteWal(d, RaftWal.SaveHardState(d.wal, h))
  }

  function Append(d: Disk, index: nat, e: Entry): Attempt {
    WriteWal(d, RaftWal.Append(d.wal, index, e))
  }

  function SaveSnapshot(d: Disk, s: Snapshot): Attempt {
    if s.lastIndex < d.image.lastIndex then Attempt(d, false)
    else
      var a := Write(d, d.(image := s));
      if a.ok then a.(disk := a.disk.(pending := s)) else a
  }

  /** The fence that drops the prefix a snapshot covers: a compaction when the log holds the
      snapshot's last entry, a reset when it does not. */
  function Fence(w: RaftWal.Wal, index: nat, term: nat): Option<RaftWal.Wal> {
    if RaftWal.TermAt(w, index) == Some(term) then RaftWal.CompactLog(w, index) else RaftWal.ResetBase(w, index, term)
  }

  function CompactLog(d: Disk, index: nat): Attempt {
    if d.pending.lastIndex != index then Attempt(d, false)
    else
      var a := WriteWal(d, Fence(d.wal, index, d.pending.lastTerm));
      if a.ok then a.(disk := a.disk.(pending := NO_SNAPSHOT)) else a
  }
}
