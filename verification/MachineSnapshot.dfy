/** The byte image of a machine: keys and clients in ascending order, so that equal machines have
    equal images. */
module MachineSnapshot {
  import opened RaftTypes
  import opened WalFormat
  import opened MachineModel

  // ----- Ascending order -----

  ghost predicate IsAscending(a: seq<nat>) {
    forall i, j :: 0 <= i < j < |a| ==> a[i] < a[j]
  }

  ghost function Elements(a: seq<nat>): set<nat> { set x | x in a }

  ghost predicate IsLeast(s: set<nat>, x: nat) {
    x in s && forall y :: y in s ==> x <= y
  }

  lemma {:induction false} HasLeast(s: set<nat>)
    requires s != {}
    ensures exists x :: IsLeast(s, x)
  {
    var z :| z in s;
    if s == {z} {
      assert IsLeast(s, z);
    } else {
      HasLeast(s - {z});
      var x :| IsLeast(s - {z}, x);
      var least := if z < x then z else x;
      forall y | y in s ensures least <= y {
        if y != z { assert y in s - {z}; }
      }
      assert IsLeast(s, least);
    }
  }

  ghost function Least(s: set<nat>): (x: nat)
    requires s != {}
    ensures IsLeast(s, x)
  {
    HasLeast(s);
    var x :| IsLeast(s, x);
    x
  }

  ghost function Ascending(s: set<nat>): seq<nat>
    decreases |s|
  {
    if s == {} then [] else [Least(s)] + Ascending(s - {Least(s)})
  }

  lemma {:induction false} AscendingIs(s: set<nat>)
    ensures IsAscending(Ascending(s)) && Elements(Ascending(s)) == s && |Ascending(s)| == |s|
    decreases |s|
  {
    if s != {} {
      hide Least;
      var x := Least(s);
      AscendingIs(s - {x});
      Prepend(x, Ascending(s - {x}));
      assert {x} + (s - {x}) == s;
    }
  }

  lemma Prepend(x: nat, rest: seq<nat>)
    requires IsAscending(rest) && (forall y :: y in Elements(rest) ==> x < y)
    ensures IsAscending([x] + rest) && Elements([x] + rest) == {x} + Elements(rest)
  {
    assert forall i :: 0 <= i < |rest| ==> rest[i] in Elements(rest);
  }

  lemma EmptyExactly(a: seq<nat>)
    ensures a == [] <==> Elements(a) == {}
  {
    if a != [] { assert a[0] in Elements(a); }
  }

  /** A set has only one ascending listing. */
  lemma {:induction false} AscendingUnique(a: seq<nat>, b: seq<nat>)
    requires IsAscending(a) && IsAscending(b) && Elements(a) == Elements(b)
    ensures a == b
  {
    EmptyExactly(a);
    EmptyExactly(b);
    if a != [] {
      SameHead(a, b);
      assert a == [a[0]] + a[1..] && b == [b[0]] + b[1..];
      assert Elements(a[1..]) == Elements(a) - {a[0]} && Elements(b[1..]) == Elements(b) - {b[0]};
      AscendingUnique(a[1..], b[1..]);
    }
  }

  lemma SameHead(a: seq<nat>, b: seq<nat>)
    requires a != [] && b != [] && IsAscending(a) && IsAscending(b) && Elements(a) == Elements(b)
    ensures a[0] == b[0]
  {
    assert a[0] in Elements(b) && b[0] in Elements(a);
    var i :| 0 <= i < |b| && b[i] == a[0];
    var j :| 0 <= j < |a| && a[j] == b[0];
  }

  // ----- The image -----

  const MAGIC4: seq<Byte> := [72, 89, 83, 77]

  function Pair(k: nat, v: nat): (b: seq<Byte>)
    ensures |b| == 16
  {
    Bytes(k, 8) + Bytes(v, 8)
  }

  function ClientRow(id: nat, c: Client): (b: seq<Byte>)
    ensures |b| == 32
  {
    Bytes(id, 8) + Bytes(c.requestId, 8) + Bytes(c.value, 8) + Bytes(if c.found then 1 else 0, 1) + Bytes(0, 7)
  }

  function Pairs(keys: seq<nat>, values: map<nat, nat>): (b: seq<Byte>)
    requires forall k :: k in keys ==> k in values
    ensures |b| == 16 * |keys|
  {
    if keys == [] then [] else Pairs(keys[..|keys| - 1], values) + Pair(keys[|keys| - 1], values[keys[|keys| - 1]])
  }

  function Rows(ids: seq<nat>, clients: map<nat, Client>): (b: seq<Byte>)
    requires forall c :: c in ids ==> c in clients
    ensures |b| == 32 * |ids|
  {
    if ids == [] then [] else Rows(ids[..|ids| - 1], clients) + ClientRow(ids[|ids| - 1], clients[ids[|ids| - 1]])
  }

  function Header(keys: nat, clients: nat): (b: seq<Byte>)
    ensures |b| == 16
  {
    MAGIC4 + Bytes(1, 2) + Bytes(0, 2) + Bytes(keys, 4) + Bytes(clients, 4)
  }

  function Body(keys: seq<nat>, ids: seq<nat>, s: State): (b: seq<Byte>)
    requires (forall k :: k in keys ==> k in s.values) && (forall c :: c in ids ==> c in s.clients)
    ensures |b| == 16 + 16 * |keys| + 32 * |ids|
  {
    Header(|keys|, |ids|) + Pairs(keys, s.values) + Rows(ids, s.clients)
  }

  ghost function Keys(s: State): (a: seq<nat>)
    ensures IsAscending(a) && Elements(a) == s.values.Keys && |a| == |s.values| && forall k :: k in a <==> k in s.values
  {
    AscendingIs(s.values.Keys);
    Listed(Ascending(s.values.Keys), s.values.Keys);
    Ascending(s.values.Keys)
  }

  ghost function ClientIds(s: State): (a: seq<nat>)
    ensures IsAscending(a) && Elements(a) == s.clients.Keys && |a| == |s.clients| && forall c :: c in a <==> c in s.clients
  {
    AscendingIs(s.clients.Keys);
    Listed(Ascending(s.clients.Keys), s.clients.Keys);
    Ascending(s.clients.Keys)
  }

  lemma Listed(a: seq<nat>, s: set<nat>)
    requires Elements(a) == s
    ensures forall x :: x in a <==> x in s
  {
    assert forall x :: x in a <==> x in Elements(a);
  }

  ghost function Snapshot(crc: Checksum, s: State): seq<Byte> {
    var body := Body(Keys(s), ClientIds(s), s);
    body + Bytes(Crc(crc, body), 4)
  }

  // ----- Restoring -----

  function ReadPairs(b: seq<Byte>, n: nat): map<nat, nat>
    requires 16 + 16 * n <= |b|
  {
    if n == 0 then map[]
    else
      var at := 16 + 16 * (n - 1);
      ReadPairs(b, n - 1)[Number(b[at..at + 8]) := Number(b[at + 8..at + 16])]
  }

  function ReadRows(b: seq<Byte>, start: nat, n: nat): map<nat, Client>
    requires start + 32 * n <= |b|
  {
    if n == 0 then map[]
    else
      var at := start + 32 * (n - 1);
      ReadRows(b, start, n - 1)[Number(b[at..at + 8]) := Client(Number(b[at + 8..at + 16]), Number(b[at + 16..at + 24]), b[at + 24] == 1)]
  }

  function Restore(crc: Checksum, b: seq<Byte>): Option<State> {
    if |b| < 20 || b[..4] != MAGIC4 || Number(b[4..6]) != 1 then None
    else if Crc(crc, b[..|b| - 4]) != Number(b[|b| - 4..]) then None
    else
      var keys, clients := Number(b[8..12]), Number(b[12..16]);
      if 20 + 16 * keys + 32 * clients != |b| then None
      else Some(State(ReadPairs(b, keys), ReadRows(b, 16 + 16 * keys, clients)))
  }

  // ----- Round trip -----

  predicate FitsClient(c: Client) { c.requestId < U64 && c.value < U64 }

  /** Numbers are 64 bits wide and there are fewer than 2^32 keys and clients. */
  ghost predicate FitsState(s: State) {
    && |s.values| < U32 && |s.clients| < U32
    && (forall k :: k in s.values ==> k < U64 && s.values[k] < U64)
    && (forall c :: c in s.clients ==> c < U64 && FitsClient(s.clients[c]))
  }

  lemma {:induction false} PairAt(keys: seq<nat>, values: map<nat, nat>, i: nat)
    requires (forall k :: k in keys ==> k in values) && i < |keys|
    ensures Pairs(keys, values)[16 * i..16 * i + 16] == Pair(keys[i], values[keys[i]])
  {
    hide Pair;
    var k := |keys| - 1;
    if i < k {
      PairAt(keys[..k], values, i);
      assert Pairs(keys, values)[16 * i..16 * i + 16] == Pairs(keys[..k], values)[16 * i..16 * i + 16];
    }
  }

  lemma {:induction false} RowAt(ids: seq<nat>, clients: map<nat, Client>, i: nat)
    requires (forall c :: c in ids ==> c in clients) && i < |ids|
    ensures Rows(ids, clients)[32 * i..32 * i + 32] == ClientRow(ids[i], clients[ids[i]])
  {
    hide ClientRow;
    var k := |ids| - 1;
    if i < k {
      RowAt(ids[..k], clients, i);
      assert Rows(ids, clients)[32 * i..32 * i + 32] == Rows(ids[..k], clients)[32 * i..32 * i + 32];
    }
  }

  lemma ReadPair(b: seq<Byte>, at: nat, k: nat, v: nat)
    requires at + 16 <= |b| && b[at..at + 16] == Pair(k, v) && k < U64 && v < U64
    ensures Number(b[at..at + 8]) == k && Number(b[at + 8..at + 16]) == v
  {
    hide Bytes, Number;
    Widths();
    ReadBack(k, 8);
    ReadBack(v, 8);
    FieldAt(b, at, at + 16, [], Bytes(k, 8), Bytes(v, 8));
    FieldAt(b, at, at + 16, Bytes(k, 8), Bytes(v, 8), []);
  }

  lemma ReadRow(b: seq<Byte>, at: nat, id: nat, c: Client)
    requires at + 32 <= |b| && b[at..at + 32] == ClientRow(id, c) && id < U64 && FitsClient(c)
    ensures Number(b[at..at + 8]) == id && Number(b[at + 8..at + 16]) == c.requestId && Number(b[at + 16..at + 24]) == c.value
    ensures b[at + 24] == 1 <==> c.found
  {
    hide Bytes, Number;
    Widths();
    ReadBack(id, 8);
    ReadBack(c.requestId, 8);
    ReadBack(c.value, 8);
    var x, y, z, f, rest := Bytes(id, 8), Bytes(c.requestId, 8), Bytes(c.value, 8), Bytes(if c.found then 1 else 0, 1), Bytes(0, 7);
    FieldAt(b, at, at + 32, [], x, y + z + f + rest);
    FieldAt(b, at, at + 32, x, y, z + f + rest);
    FieldAt(b, at, at + 32, x + y, z, f + rest);
    FieldAt(b, at, at + 32, x + y + z, f, rest);
    OneByte(if c.found then 1 else 0);
    assert b[at + 24..at + 25][0] == b[at + 24];
  }

  lemma OneByte(x: Byte)
    ensures Bytes(x, 1) == [x]
  {
    assert Bytes(x / 256, 0) == [];
  }

  lemma {:induction false} ReadsPairs(b: seq<Byte>, keys: seq<nat>, values: map<nat, nat>, n: nat)
    requires (forall k :: k in keys ==> k in values && k < U64 && values[k] < U64) && n <= |keys|
    requires 16 + 16 * |keys| <= |b| && b[16..16 + 16 * |keys|] == Pairs(keys, values)
    ensures ReadPairs(b, n) == map k | k in keys[..n] :: values[k]
  {
    hide Number, Pair, Pairs;
    if n > 0 {
      var i := n - 1;
      ReadsPairs(b, keys, values, i);
      PairAt(keys, values, i);
      var at := 16 + 16 * i;
      SliceOf(b, 16, 16 + 16 * |keys|, 16 * i, 16 * i + 16);
      ReadPair(b, at, keys[i], values[keys[i]]);
      assert keys[..n] == keys[..i] + [keys[i]];
    }
  }

  lemma {:induction false} ReadsRows(b: seq<Byte>, start: nat, ids: seq<nat>, clients: map<nat, Client>, n: nat)
    requires (forall c :: c in ids ==> c in clients && c < U64 && FitsClient(clients[c])) && n <= |ids|
    requires start + 32 * |ids| <= |b| && b[start..start + 32 * |ids|] == Rows(ids, clients)
    ensures ReadRows(b, start, n) == map c | c in ids[..n] :: clients[c]
  {
    hide Number, ClientRow, Rows;
    if n > 0 {
      var i := n - 1;
      ReadsRows(b, start, ids, clients, i);
      RowAt(ids, clients, i);
      var at := start + 32 * i;
      SliceOf(b, start, start + 32 * |ids|, 32 * i, 32 * i + 32);
      ReadRow(b, at, ids[i], clients[ids[i]]);
      assert ids[..n] == ids[..i] + [ids[i]];
    }
  }

  lemma HeaderFields4(b: seq<Byte>, keys: nat, clients: nat)
    requires 20 <= |b| && b[0..16] == Header(keys, clients) && keys < U32 && clients < U32
    ensures b[..4] == MAGIC4 && Number(b[4..6]) == 1 && Number(b[8..12]) == keys && Number(b[12..16]) == clients
  {
    hide Bytes, Number;
    Widths();
    ReadBack(1, 2);
    ReadBack(keys, 4);
    ReadBack(clients, 4);
    var v, z, x, y := Bytes(1, 2), Bytes(0, 2), Bytes(keys, 4), Bytes(clients, 4);
    FieldAt(b, 0, 16, [], MAGIC4, v + z + x + y);
    FieldAt(b, 0, 16, MAGIC4, v, z + x + y);
    FieldAt(b, 0, 16, MAGIC4 + v + z, x, y);
    FieldAt(b, 0, 16, MAGIC4 + v + z + x, y, []);
  }

  lemma SumAtEnd(crc: Checksum, body: seq<Byte>)
    ensures var b := body + Bytes(Crc(crc, body), 4); |b| == |body| + 4 && b[..|b| - 4] == body && Number(b[|b| - 4..]) == Crc(crc, body)
  {
    hide Bytes, Number;
    Widths();
    ReadBack(Crc(crc, body), 4);
    var b := body + Bytes(Crc(crc, body), 4);
    assert b[|b| - 4..] == Bytes(Crc(crc, body), 4);
  }

  /** `part` stands in `b` at offset `at`. */
  predicate Stands(b: seq<Byte>, at: nat, part: seq<Byte>) {
    at + |part| <= |b| && b[at..at + |part|] == part
  }

  ghost predicate Names(a: seq<nat>, s: set<nat>) {
    forall x :: x in a <==> x in s
  }

  /** The last four bytes are the checksum of the others. */
  predicate Summed(crc: Checksum, b: seq<Byte>) {
    |b| >= 4 && Crc(crc, b[..|b| - 4]) == Number(b[|b| - 4..])
  }

  predicate Counts(b: seq<Byte>, keys: nat, clients: nat) {
    && |b| == 20 + 16 * keys + 32 * clients && b[..4] == MAGIC4
    && Number(b[4..6]) == 1 && Number(b[8..12]) == keys && Number(b[12..16]) == clients
  }

  lemma ReadsHeader(b: seq<Byte>, keys: nat, clients: nat)
    requires |b| == 20 + 16 * keys + 32 * clients && Stands(b, 0, Header(keys, clients)) && keys < U32 && clients < U32
    ensures Counts(b, keys, clients)
  {
    hide Number, Header;
    HeaderFields4(b, keys, clients);
  }

  lemma ReadsValues(b: seq<Byte>, keys: seq<nat>, s: State)
    requires Names(keys, s.values.Keys) && FitsState(s) && Stands(b, 16, Pairs(keys, s.values))
    ensures ReadPairs(b, |keys|) == s.values
  {
    hide Pairs, ReadPairs;
    ReadsPairs(b, keys, s.values, |keys|);
    assert keys[..|keys|] == keys;
  }

  lemma ReadsClients(b: seq<Byte>, start: nat, ids: seq<nat>, s: State)
    requires Names(ids, s.clients.Keys) && FitsState(s) && Stands(b, start, Rows(ids, s.clients))
    ensures ReadRows(b, start, |ids|) == s.clients
  {
    hide Rows, ReadRows;
    ReadsRows(b, start, ids, s.clients, |ids|);
    assert ids[..|ids|] == ids;
  }

  lemma ReadsCounts(crc: Checksum, b: seq<Byte>, keys: nat, clients: nat)
    requires Counts(b, keys, clients) && Summed(crc, b)
    ensures Restore(crc, b) == Some(State(ReadPairs(b, keys), ReadRows(b, 16 + 16 * keys, clients)))
  {
    hide Number, ReadPairs, ReadRows, Crc;
  }

  /** An image laid out as it should be, with the right checksum, is read back. */
  lemma ReadsImage(crc: Checksum, b: seq<Byte>, keys: seq<nat>, ids: seq<nat>, s: State)
    requires Names(keys, s.values.Keys) && Names(ids, s.clients.Keys) && FitsState(s)
    requires |keys| < U32 && |ids| < U32 && |b| == 20 + 16 * |keys| + 32 * |ids| && Summed(crc, b)
    requires Stands(b, 0, Header(|keys|, |ids|)) && Stands(b, 16, Pairs(keys, s.values))
    requires Stands(b, 16 + 16 * |keys|, Rows(ids, s.clients))
    ensures Restore(crc, b) == Some(s)
  {
    hide Pairs, Rows, Header, ReadPairs, ReadRows, FitsState, Restore, Stands, Names, Summed, Counts;
    ReadsHeader(b, |keys|, |ids|);
    ReadsValues(b, keys, s);
    ReadsClients(b, 16 + 16 * |keys|, ids, s);
    ReadsCounts(crc, b, |keys|, |ids|);
  }

  lemma Layout(b: seq<Byte>, h: seq<Byte>, p: seq<Byte>, r: seq<Byte>, sum: seq<Byte>)
    requires b == h + p + r + sum
    ensures Stands(b, 0, h) && Stands(b, |h|, p) && Stands(b, |h| + |p|, r)
  {
  }

  /** Restoring a snapshot gives back the machine, with its memory of clients. */
  lemma RestoreSnapshot(crc: Checksum, s: State)
    requires FitsState(s)
    ensures Restore(crc, Snapshot(crc, s)) == Some(s)
  {
    hide Bytes, Number, Pairs, Rows, Header, Restore, Crc, Keys, ClientIds, Stands;
    var keys, ids := Keys(s), ClientIds(s);
    var body, b := Body(keys, ids, s), Snapshot(crc, s);
    SumAtEnd(crc, body);
    var h, p, r := Header(|keys|, |ids|), Pairs(keys, s.values), Rows(ids, s.clients);
    Layout(b, h, p, r, Bytes(Crc(crc, body), 4));
    ReadsImage(crc, b, keys, ids, s);
  }

  /** The magic bytes and the version of an image, and a length that agrees with its counts. */
  predicate Shaped(b: seq<Byte>) {
    && |b| >= 20 && b[..4] == MAGIC4 && b[4..6] == Bytes(1, 2)
    && |b| == 20 + 16 * Number(b[8..12]) + 32 * Number(b[12..16])
  }

  /** An image is accepted exactly when its shape is right and its last four bytes are the checksum
      of the others. */
  lemma RestoresExactly(crc: Checksum, b: seq<Byte>)
    ensures Restore(crc, b).Some? <==> Shaped(b) && b[|b| - 4..] == Bytes(Crc(crc, b[..|b| - 4]), 4)
  {
    hide Bytes, Number, Pow256, ReadPairs, ReadRows;
    Widths();
    if |b| >= 20 {
      ReadsExactly(b[4..6], 1);
      ReadsExactly(b[|b| - 4..], Crc(crc, b[..|b| - 4]));
    }
  }

  /** A machine restored from a snapshot of any prefix of the log, and given the rest of the log,
      is the machine that applied the whole log. */
  lemma ResumeFromSnapshot(crc: Checksum, log: seq<Entry>, k: nat)
    requires k <= |log| && FitsState(ApplyAll(EMPTY, log[..k]))
    ensures var r := Restore(crc, Snapshot(crc, ApplyAll(EMPTY, log[..k])));
      r.Some? && ApplyAll(r.value, log[k..]) == ApplyAll(EMPTY, log)
  {
    hide Snapshot, Restore, FitsState, ApplyAll;
    RestoreSnapshot(crc, ApplyAll(EMPTY, log[..k]));
    Resume(EMPTY, log, k);
  }
}
