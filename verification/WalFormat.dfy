/** The fixed-size record of the write-ahead log, byte by byte. */
module WalFormat {
  import opened RaftTypes

  // ----- Little-endian integers -----

  function Pow256(w: nat): (r: nat)
    ensures 0 < r
  {
    if w == 0 then 1 else 256 * Pow256(w - 1)
  }

  /** The `w` low bytes of `x`, least significant first. */
  function Bytes(x: nat, w: nat): (b: seq<Byte>)
    ensures |b| == w
  {
    if w == 0 then [] else [x % 256] + Bytes(x / 256, w - 1)
  }

  function Number(b: seq<Byte>): nat {
    if b == [] then 0 else b[0] + 256 * Number(b[1..])
  }

  /** Reading back what was written, for values that fit. */
  lemma {:induction false} ReadBack(x: nat, w: nat)
    requires x < Pow256(w)
    ensures Number(Bytes(x, w)) == x
  {
    if w > 0 { ReadBack(x / 256, w - 1); }
  }

  const U8: nat := 256
  const U16: nat := 65536
  const U32: nat := 4294967296
  const U64: nat := 18446744073709551616

  lemma Widths()
    ensures Pow256(2) == U16 && Pow256(4) == U32 && Pow256(8) == U64
  {
    assert Pow256(1) == 256 && Pow256(2) == 65536 && Pow256(3) == 16777216 && Pow256(4) == 4294967296;
    assert Pow256(5) == 1099511627776 && Pow256(6) == 281474976710656 && Pow256(7) == 72057594037927936;
  }

  // ----- Records -----

  /** A durable record carries its index, since it has no position. */
  datatype StoredEntry = StoredEntry(index: nat, term: nat, command: nat, kind: nat, oldVoters: nat, newVoters: nat,
                           operation: nat, clientId: nat, requestId: nat, key: nat, value: nat)

  datatype Record = Record(sequence: nat, entry: StoredEntry)

  predicate Fits(r: Record) {
    var e := r.entry;
    && r.sequence < U64 && e.index < U64 && e.term < U64 && e.command < U64 && e.kind < U8
    && e.oldVoters < U64 && e.newVoters < U64 && e.operation < U8
    && e.clientId < U64 && e.requestId < U64 && e.key < U64 && e.value < U64
  }

  const RECORD_SIZE: nat := 112
  const VERSION: nat := 3
  const MAGIC: seq<Byte> := [72, 89, 80, 87, 65, 76, 48, 51]

  /** The checksum is some function of the bytes it covers. */
  type Checksum = seq<Byte> -> nat

  function Crc(crc: Checksum, b: seq<Byte>): nat { crc(b) % U32 }

  function Header(r: Record): (b: seq<Byte>)
    ensures |b| == 20
  {
    MAGIC + Bytes(VERSION, 2) + Bytes(0, 2) + Bytes(r.sequence, 8)
  }

  function Command(e: StoredEntry): (b: seq<Byte>)
    ensures |b| == 32
  {
    Bytes(e.index, 8) + Bytes(e.term, 8) + Bytes(e.command, 8) + Bytes(e.kind, 2) + Bytes(0, 6)
  }

  function Voters(e: StoredEntry): (b: seq<Byte>)
    ensures |b| == 20
  {
    Bytes(e.oldVoters, 8) + Bytes(e.newVoters, 8) + Bytes(e.operation, 2) + Bytes(0, 2)
  }

  function Request(e: StoredEntry): (b: seq<Byte>)
    ensures |b| == 36
  {
    Bytes(e.clientId, 8) + Bytes(e.requestId, 8) + Bytes(e.key, 8) + Bytes(e.value, 8) + Bytes(0, 4)
  }

  function Body(r: Record): (b: seq<Byte>)
    ensures |b| == 108
  {
    Header(r) + Command(r.entry) + Voters(r.entry) + Request(r.entry)
  }

  function Encode(crc: Checksum, r: Record): (b: seq<Byte>)
    ensures |b| == RECORD_SIZE
  {
    Body(r) + Bytes(Crc(crc, Body(r)), 4)
  }

  datatype Error = BadFormat | BadChecksum | BadSequence

  datatype Result<+T> = Ok(value: T) | Err(error: Error)

  function Parse(b: seq<Byte>): Record
    requires |b| == RECORD_SIZE
  {
    Record(Number(b[12..20]),
           StoredEntry(Number(b[20..28]), Number(b[28..36]), Number(b[36..44]), Number(b[44..46]) % U8, Number(b[52..60]), Number(b[60..68]),
                  Number(b[68..70]) % U8, Number(b[72..80]), Number(b[80..88]), Number(b[88..96]), Number(b[96..104])))
  }

  function Decode(crc: Checksum, b: seq<Byte>): Result<Record> {
    if |b| != RECORD_SIZE || b[..8] != MAGIC || Number(b[8..10]) != VERSION then Err(BadFormat)
    else if Crc(crc, b[..108]) != Number(b[108..112]) then Err(BadChecksum)
    else Ok(Parse(b))
  }

  // ----- Round trip -----

  /** A slice of a slice. */
  lemma SliceOf(b: seq<Byte>, lo: nat, hi: nat, x: nat, y: nat)
    requires lo <= hi <= |b| && x <= y <= hi - lo
    ensures b[lo..hi][x..y] == b[lo + x..lo + y]
  {
    var s := b[lo..hi];
    forall k | 0 <= k < y - x ensures s[x..y][k] == b[lo + x..lo + y][k] {
      assert s[x + k] == b[lo + x + k];
    }
  }

  /** A field inside a stretch of bytes. */
  lemma FieldAt(b: seq<Byte>, lo: nat, hi: nat, before: seq<Byte>, field: seq<Byte>, after: seq<Byte>)
    requires lo <= hi <= |b| && b[lo..hi] == before + field + after
    ensures b[lo + |before|..lo + |before| + |field|] == field
  {
    var s, x := b[lo..hi], lo + |before|;
    forall k | 0 <= k < |field| ensures b[x..x + |field|][k] == field[k] {
      assert s[|before| + k] == field[k];
      assert b[x + k] == s[|before| + k];
    }
  }

  lemma HeaderFields(r: Record, b: seq<Byte>)
    requires |b| == RECORD_SIZE && b[0..20] == Header(r) && Fits(r)
    ensures b[..8] == MAGIC && Number(b[8..10]) == VERSION && Number(b[12..20]) == r.sequence
  {
    hide Bytes, Number;
    Widths();
    FieldAt(b, 0, 20, [], MAGIC, Bytes(VERSION, 2) + Bytes(0, 2) + Bytes(r.sequence, 8));
    ReadBack(VERSION, 2);
    FieldAt(b, 0, 20, MAGIC, Bytes(VERSION, 2), Bytes(0, 2) + Bytes(r.sequence, 8));
    ReadBack(r.sequence, 8);
    FieldAt(b, 0, 20, MAGIC + Bytes(VERSION, 2) + Bytes(0, 2), Bytes(r.sequence, 8), []);
  }

  lemma CommandFields(e: StoredEntry, b: seq<Byte>)
    requires |b| == RECORD_SIZE && b[20..52] == Command(e) && Fits(Record(0, e))
    ensures Number(b[20..28]) == e.index && Number(b[28..36]) == e.term && Number(b[36..44]) == e.command && Number(b[44..46]) % U8 == e.kind
  {
    hide Bytes, Number;
    Widths();
    ReadBack(e.index, 8);
    FieldAt(b, 20, 52, [], Bytes(e.index, 8), Bytes(e.term, 8) + Bytes(e.command, 8) + Bytes(e.kind, 2) + Bytes(0, 6));
    ReadBack(e.term, 8);
    FieldAt(b, 20, 52, Bytes(e.index, 8), Bytes(e.term, 8), Bytes(e.command, 8) + Bytes(e.kind, 2) + Bytes(0, 6));
    ReadBack(e.command, 8);
    FieldAt(b, 20, 52, Bytes(e.index, 8) + Bytes(e.term, 8), Bytes(e.command, 8), Bytes(e.kind, 2) + Bytes(0, 6));
    ReadBack(e.kind, 2);
    FieldAt(b, 20, 52, Bytes(e.index, 8) + Bytes(e.term, 8) + Bytes(e.command, 8), Bytes(e.kind, 2), Bytes(0, 6));
  }

  lemma VotersFields(e: StoredEntry, b: seq<Byte>)
    requires |b| == RECORD_SIZE && b[52..72] == Voters(e) && Fits(Record(0, e))
    ensures Number(b[52..60]) == e.oldVoters && Number(b[60..68]) == e.newVoters && Number(b[68..70]) % U8 == e.operation
  {
    hide Bytes, Number;
    Widths();
    ReadBack(e.oldVoters, 8);
    FieldAt(b, 52, 72, [], Bytes(e.oldVoters, 8), Bytes(e.newVoters, 8) + Bytes(e.operation, 2) + Bytes(0, 2));
    ReadBack(e.newVoters, 8);
    FieldAt(b, 52, 72, Bytes(e.oldVoters, 8), Bytes(e.newVoters, 8), Bytes(e.operation, 2) + Bytes(0, 2));
    ReadBack(e.operation, 2);
    FieldAt(b, 52, 72, Bytes(e.oldVoters, 8) + Bytes(e.newVoters, 8), Bytes(e.operation, 2), Bytes(0, 2));
  }

  lemma RequestFields(e: StoredEntry, b: seq<Byte>)
    requires |b| == RECORD_SIZE && b[72..108] == Request(e) && Fits(Record(0, e))
    ensures Number(b[72..80]) == e.clientId && Number(b[80..88]) == e.requestId && Number(b[88..96]) == e.key && Number(b[96..104]) == e.value
  {
    hide Bytes, Number;
    Widths();
    ReadBack(e.clientId, 8);
    FieldAt(b, 72, 108, [], Bytes(e.clientId, 8), Bytes(e.requestId, 8) + Bytes(e.key, 8) + Bytes(e.value, 8) + Bytes(0, 4));
    ReadBack(e.requestId, 8);
    FieldAt(b, 72, 108, Bytes(e.clientId, 8), Bytes(e.requestId, 8), Bytes(e.key, 8) + Bytes(e.value, 8) + Bytes(0, 4));
    ReadBack(e.key, 8);
    FieldAt(b, 72, 108, Bytes(e.clientId, 8) + Bytes(e.requestId, 8), Bytes(e.key, 8), Bytes(e.value, 8) + Bytes(0, 4));
    ReadBack(e.value, 8);
    FieldAt(b, 72, 108, Bytes(e.clientId, 8) + Bytes(e.requestId, 8) + Bytes(e.key, 8), Bytes(e.value, 8), Bytes(0, 4));
  }

  /** Every record that fits its fields is read back as written, whatever the checksum function. */
  lemma RoundTrip(crc: Checksum, r: Record)
    requires Fits(r)
    ensures Decode(crc, Encode(crc, r)) == Ok(r)
  {
    hide Bytes, Number, Header, Command, Voters, Request;
    var b := Encode(crc, r);
    assert b[..108] == Body(r);
    assert b[0..20] == Header(r) && b[20..52] == Command(r.entry) && b[52..72] == Voters(r.entry) && b[72..108] == Request(r.entry);
    HeaderFields(r, b);
    CommandFields(r.entry, b);
    VotersFields(r.entry, b);
    RequestFields(r.entry, b);
    Widths();
    ReadBack(Crc(crc, Body(r)), 4);
    assert b[108..112] == Bytes(Crc(crc, Body(r)), 4);
  }

  // ----- What is accepted -----

  /** Writing back what was read, which fits the bytes it was read from. */
  lemma {:induction false} WriteBack(b: seq<Byte>)
    ensures Number(b) < Pow256(|b|) && Bytes(Number(b), |b|) == b
  {
    if b != [] {
      WriteBack(b[1..]);
      LowByte(b[0], Number(b[1..]));
      assert b == [b[0]] + b[1..];
    }
  }

  lemma LowByte(low: Byte, rest: nat)
    ensures (low + 256 * rest) % 256 == low && (low + 256 * rest) / 256 == rest
  {
  }

  /** Bytes read as `x` exactly when they are the bytes of `x` and `x` fits them. */
  lemma ReadsExactly(b: seq<Byte>, x: nat)
    ensures Number(b) == x <==> x < Pow256(|b|) && b == Bytes(x, |b|)
  {
    WriteBack(b);
    if x < Pow256(|b|) { ReadBack(x, |b|); }
  }

  /** The length, the magic bytes and the version of a record. */
  predicate WellFormed(b: seq<Byte>) {
    |b| == RECORD_SIZE && b[..8] == MAGIC && b[8..10] == Bytes(VERSION, 2)
  }

  /** The last four bytes are the checksum of the others. */
  predicate SumRight(crc: Checksum, b: seq<Byte>)
    requires |b| == RECORD_SIZE
  {
    b[108..112] == Bytes(Crc(crc, b[..108]), 4)
  }

  /** A record is accepted exactly when its form and its checksum are right; a wrong form is
      reported before a wrong checksum. */
  lemma DecodesExactly(crc: Checksum, b: seq<Byte>)
    ensures Decode(crc, b).Ok? <==> WellFormed(b) && SumRight(crc, b)
    ensures Decode(crc, b) == Err(BadFormat) <==> !WellFormed(b)
    ensures Decode(crc, b) == Err(BadChecksum) <==> WellFormed(b) && !SumRight(crc, b)
  {
    hide Bytes, Number, Pow256, Parse;
    Widths();
    if |b| == RECORD_SIZE {
      ReadsExactly(b[8..10], VERSION);
      ReadsExactly(b[108..112], Crc(crc, b[..108]));
    }
  }

  /** A record whose stored checksum was damaged is refused, and one damaged between its version
      and its checksum is refused exactly when the checksum function tells it from the original. */
  lemma DamageIsRefused(crc: Checksum, r: Record, b: seq<Byte>)
    requires Fits(r) && |b| == RECORD_SIZE && b[..10] == Encode(crc, r)[..10]
    ensures b[..108] == Body(r) && b != Encode(crc, r) ==> Decode(crc, b) == Err(BadChecksum)
    ensures b[108..112] == Encode(crc, r)[108..112] ==> (Decode(crc, b) == Err(BadChecksum) <==> Crc(crc, b[..108]) != Crc(crc, Body(r)))
  {
    hide Bytes, Number, Pow256, Body, Decode, Parse;
    var sum := Crc(crc, Body(r));
    var a := Encode(crc, r);
    RoundTrip(crc, r);
    DecodesExactly(crc, a);
    DecodesExactly(crc, b);
    assert b[..8] == b[..10][..8] == a[..10][..8] == a[..8] && b[8..10] == b[..10][8..] == a[..10][8..] == a[8..10];
    assert a[108..112] == Bytes(sum, 4) && b == b[..108] + b[108..112];
    Widths();
    ReadBack(sum, 4);
    ReadBack(Crc(crc, b[..108]), 4);
  }

  // ----- In place -----

  /** Writes the low `w` bytes of `x` at `at`; what stands before and after stays. */
  method PutInto(dst: array<Byte>, at: nat, x: nat, w: nat)
    requires at + w <= dst.Length
    modifies dst
    ensures dst[..at + w] == old(dst[..at]) + Bytes(x, w)
  {
    var i, rest := 0, x;
    while i < w
      invariant i <= w && dst[..at] == old(dst[..at])
      invariant dst[at..at + i] + Bytes(rest, w - i) == Bytes(x, w)
    {
      dst[at + i] := rest % 256;
      assert dst[at..at + i + 1] == dst[at..at + i] + [rest % 256];
      rest := rest / 256;
      i := i + 1;
    }
    assert dst[..at + w] == dst[..at] + dst[at..at + w];
  }

  method CopyInto(dst: array<Byte>, at: nat, src: seq<Byte>)
    requires at + |src| <= dst.Length
    modifies dst
    ensures dst[..at + |src|] == old(dst[..at]) + src
  {
    var i := 0;
    while i < |src|
      invariant i <= |src| && dst[..at + i] == old(dst[..at]) + src[..i]
    {
      dst[at + i] := src[i];
      assert dst[..at + i + 1] == dst[..at + i] + [src[i]];
      i := i + 1;
    }
  }

  /** Fills a record buffer, field after field. */
  method EncodeInto(crc: Checksum, dst: array<Byte>, r: Record)
    requires dst.Length == RECORD_SIZE
    modifies dst
    ensures dst[..] == Encode(crc, r)
  {
    hide Bytes;
    EncodeHeader(dst, r);
    EncodeCommand(dst, r.entry);
    EncodeVoters(dst, r.entry);
    EncodeRequest(dst, r.entry);
    assert dst[..108] == Body(r);
    PutInto(dst, 108, Crc(crc, dst[..108]), 4);
    assert dst[..112] == dst[..];
  }

  method EncodeHeader(dst: array<Byte>, r: Record)
    requires dst.Length == RECORD_SIZE
    modifies dst
    ensures dst[..20] == Header(r)
  {
    hide Bytes;
    CopyInto(dst, 0, MAGIC);
    PutInto(dst, 8, VERSION, 2);
    PutInto(dst, 10, 0, 2);
    PutInto(dst, 12, r.sequence, 8);
  }

  method EncodeCommand(dst: array<Byte>, e: StoredEntry)
    requires dst.Length == RECORD_SIZE
    modifies dst
    ensures dst[..52] == old(dst[..20]) + Command(e)
  {
    hide Bytes;
    PutInto(dst, 20, e.index, 8);
    PutInto(dst, 28, e.term, 8);
    PutInto(dst, 36, e.command, 8);
    PutInto(dst, 44, e.kind, 2);
    PutInto(dst, 46, 0, 6);
  }

  method EncodeVoters(dst: array<Byte>, e: StoredEntry)
    requires dst.Length == RECORD_SIZE
    modifies dst
    ensures dst[..72] == old(dst[..52]) + Voters(e)
  {
    hide Bytes;
    PutInto(dst, 52, e.oldVoters, 8);
    PutInto(dst, 60, e.newVoters, 8);
    PutInto(dst, 68, e.operation, 2);
    PutInto(dst, 70, 0, 2);
  }

  method EncodeRequest(dst: array<Byte>, e: StoredEntry)
    requires dst.Length == RECORD_SIZE
    modifies dst
    ensures dst[..108] == old(dst[..72]) + Request(e)
  {
    hide Bytes;
    PutInto(dst, 72, e.clientId, 8);
    PutInto(dst, 80, e.requestId, 8);
    PutInto(dst, 88, e.key, 8);
    PutInto(dst, 96, e.value, 8);
    PutInto(dst, 104, 0, 4);
  }
}
