/** The key-value machine as it runs: two maps updated in place, and its images. */
module StateMachine {
  import opened RaftTypes
  import opened WalFormat
  import Model = MachineModel
  import Image = MachineSnapshot

  // ----- Looking up an earlier answer -----

  datatype Lookup = Unknown | Older | Known(clientId: nat, requestId: nat, value: nat, found: bool)

  function Recalled(s: Model.State, clientId: nat, requestId: nat): Lookup {
    if clientId !in s.clients || requestId > s.clients[clientId].requestId then Unknown
    else if requestId < s.clients[clientId].requestId then Older
    else Known(clientId, requestId, s.clients[clientId].value, s.clients[clientId].found)
  }

  /** Looking a request up tells exactly what applying it would: known requests are answered the
      same and change nothing, older ones are refused, and unknown ones are those carried out. */
  lemma RecallAgrees(s: Model.State, e: Entry)
    requires e.operation != Legacy
    ensures match Recalled(s, e.clientId, e.requestId)
      case Known(c, r, v, f) => Model.AnswerTo(s, e) == Model.Done(c, r, v, f) && Model.Apply(s, e) == s
      case Older => Model.AnswerTo(s, e) == Model.StaleRequest && Model.Apply(s, e) == s
      case Unknown =>
        && var t := Model.Apply(s, e);
        && t.values == Model.Plain(s.values, e)
        && var k := Recalled(t, e.clientId, e.requestId);
        && k.Known? && Model.AnswerTo(s, e) == Model.Done(k.clientId, k.requestId, k.value, k.found)
  {
    hide Model.Plain;
    Model.OutcomeNumber(s.values, e);
  }

  // ----- Putting keys in order -----

  lemma InsertAt(a: seq<nat>, i: nat, x: nat)
    requires Image.IsAscending(a) && i <= |a| && x !in a
    requires (i > 0 ==> a[i - 1] < x) && (i < |a| ==> x < a[i])
    ensures Image.IsAscending(a[..i] + [x] + a[i..])
  {
    var b := a[..i] + [x] + a[i..];
    forall j, k | 0 <= j < k < |b| ensures b[j] < b[k] {
      assert j < i ==> b[j] == a[j] <= a[i - 1];
      assert k > i ==> b[k] == a[k - 1] >= a[i];
    }
  }

  lemma InsertAdds(a: seq<nat>, i: nat, x: nat)
    requires i <= |a|
    ensures Image.Elements(a[..i] + [x] + a[i..]) == Image.Elements(a) + {x}
  {
    assert a == a[..i] + a[i..];
  }

  /** Puts `x` into its place in an ascending listing. */
  method Insert(a: seq<nat>, x: nat) returns (b: seq<nat>)
    requires Image.IsAscending(a) && x !in a
    ensures Image.IsAscending(b) && Image.Elements(b) == Image.Elements(a) + {x}
  {
    var i := |a|;
    while i > 0 && x < a[i - 1]
      invariant 0 <= i <= |a| && (i < |a| ==> x < a[i])
    {
      i := i - 1;
    }
    InsertAt(a, i, x);
    InsertAdds(a, i, x);
    b := a[..i] + [x] + a[i..];
  }

  /** The keys of a map, taken in any order, sorted. */
  method Sorted(keys: set<nat>) returns (a: seq<nat>)
    ensures a == Image.Ascending(keys)
  {
    a := [];
    var left := keys;
    while left != {}
      invariant left <= keys && Image.IsAscending(a) && Image.Elements(a) == keys - left
      decreases |left|
    {
      var x :| x in left;
      assert x !in Image.Elements(a);
      a := Insert(a, x);
      left := left - {x};
      assert keys - left == keys - (left + {x}) + {x};
    }
    Image.AscendingIs(keys);
    Image.AscendingUnique(a, Image.Ascending(keys));
  }

  class Machine {
    var values: map<nat, nat>
    var clients: map<nat, Model.Client>

    ghost function View(): Model.State
      reads this
    {
      Model.State(values, clients)
    }

    constructor ()
      ensures View() == Model.EMPTY
    {
      values, clients := map[], map[];
    }

    method Apply(e: Entry) returns (a: Model.Answer)
      modifies this
      ensures View() == Model.Apply(old(View()), e) && a == Model.AnswerTo(old(View()), e)
    {
      if e.operation == Legacy { return Model.Ignored; }
      if e.clientId in clients {
        var previous := clients[e.clientId];
        if previous.requestId == e.requestId {
          return Model.Done(e.clientId, previous.requestId, previous.value, previous.found);
        }
        if e.requestId < previous.requestId { return Model.StaleRequest; }
      }
      var value, found := e.value, true;
      if e.operation == CommandOp.Put {
        values := values[e.key := e.value];
      } else {
        value, found := Get(e.key);
        values := values - {e.key};
      }
      clients := clients[e.clientId := Model.Client(e.requestId, value, found)];
      a := Model.Done(e.clientId, e.requestId, value, found);
    }

    method Get(key: nat) returns (value: nat, found: bool)
      ensures found == (key in values) && value == if found then values[key] else 0
    {
      if key in values { return values[key], true; }
      return 0, false;
    }

    method Cached(clientId: nat, requestId: nat) returns (r: Lookup)
      ensures r == Recalled(View(), clientId, requestId)
    {
      if clientId !in clients { return Unknown; }
      var record := clients[clientId];
      if requestId > record.requestId { return Unknown; }
      if requestId < record.requestId { return Older; }
      r := Known(clientId, requestId, record.value, record.found);
    }

    /** The image depends on the state alone, not on the order in which the maps are walked. */
    method Snapshot(crc: Checksum) returns (out: array<Byte>)
      ensures fresh(out) && out[..] == Image.Snapshot(crc, View())
    {
      hide Bytes, Image.Header, Image.Pairs, Image.Rows, Image.Ascending;
      var keys := Sorted(values.Keys);
      var ids := Sorted(clients.Keys);
      assert keys == Image.Keys(View()) && ids == Image.ClientIds(View());
      var end := 16 + |keys| * 16 + |ids| * 32;
      out := new Byte[end + 4];
      WriteHeader(out, |keys|, |ids|);
      WritePairs(out, keys, values);
      WriteRows(out, 16 + |keys| * 16, ids, clients);
      var sum := Crc(crc, out[..end]);
      PutInto(out, end, sum, 4);
      assert out[..] == out[..end + 4];
    }

    static method Restore(crc: Checksum, b: seq<Byte>) returns (m: Machine?)
      ensures m == null <==> Image.Restore(crc, b) == None
      ensures m != null ==> fresh(m) && Image.Restore(crc, b) == Some(m.View())
    {
      hide Number, Image.ReadPairs, Image.ReadRows;
      if |b| < 20 || b[..4] != Image.MAGIC4 || Number(b[4..6]) != 1 { return null; }
      if Crc(crc, b[..|b| - 4]) != Number(b[|b| - 4..]) { return null; }
      var keys, ids := Number(b[8..12]), Number(b[12..16]);
      if 20 + 16 * keys + 32 * ids != |b| { return null; }
      m := new Machine();
      m.values := PairsFrom(b, keys);
      m.clients := RowsFrom(b, 16 + 16 * keys, ids);
    }
  }

  // ----- Writing an image -----

  method WriteHeader(out: array<Byte>, keys: nat, clients: nat)
    requires 16 <= out.Length
    modifies out
    ensures out[..16] == Image.Header(keys, clients)
  {
    hide Bytes;
    CopyInto(out, 0, Image.MAGIC4);
    PutInto(out, 4, 1, 2);
    PutInto(out, 6, 0, 2);
    PutInto(out, 8, keys, 4);
    PutInto(out, 12, clients, 4);
  }

  method WritePair(out: array<Byte>, at: nat, k: nat, v: nat)
    requires at + 16 <= out.Length
    modifies out
    ensures out[..at + 16] == old(out[..at]) + Image.Pair(k, v)
  {
    hide Bytes;
    PutInto(out, at, k, 8);
    PutInto(out, at + 8, v, 8);
  }

  method WriteRow(out: array<Byte>, at: nat, id: nat, c: Model.Client)
    requires at + 32 <= out.Length
    modifies out
    ensures out[..at + 32] == old(out[..at]) + Image.ClientRow(id, c)
  {
    hide Bytes;
    PutInto(out, at, id, 8);
    PutInto(out, at + 8, c.requestId, 8);
    PutInto(out, at + 16, c.value, 8);
    PutInto(out, at + 24, if c.found then 1 else 0, 1);
    PutInto(out, at + 25, 0, 7);
  }

  method WritePairs(out: array<Byte>, keys: seq<nat>, values: map<nat, nat>)
    requires (forall k :: k in keys ==> k in values) && 16 + 16 * |keys| <= out.Length
    modifies out
    ensures out[..16 + 16 * |keys|] == old(out[..16]) + Image.Pairs(keys, values)
  {
    hide Image.Pair;
    var i := 0;
    while i < |keys|
      invariant i <= |keys| && out[..16 + 16 * i] == old(out[..16]) + Image.Pairs(keys[..i], values)
    {
      WritePair(out, 16 + 16 * i, keys[i], values[keys[i]]);
      i := i + 1;
      assert keys[..i][..i - 1] == keys[..i - 1];
    }
    assert keys[..i] == keys;
  }

  method WriteRows(out: array<Byte>, start: nat, ids: seq<nat>, clients: map<nat, Model.Client>)
    requires (forall c :: c in ids ==> c in clients) && start + 32 * |ids| <= out.Length
    modifies out
    ensures out[..start + 32 * |ids|] == old(out[..start]) + Image.Rows(ids, clients)
  {
    hide Image.ClientRow;
    var i := 0;
    while i < |ids|
      invariant i <= |ids| && out[..start + 32 * i] == old(out[..start]) + Image.Rows(ids[..i], clients)
    {
      WriteRow(out, start + 32 * i, ids[i], clients[ids[i]]);
      i := i + 1;
      assert ids[..i][..i - 1] == ids[..i - 1];
    }
    assert ids[..i] == ids;
  }

  // ----- Reading an image -----

  method PairsFrom(b: seq<Byte>, n: nat) returns (values: map<nat, nat>)
    requires 16 + 16 * n <= |b|
    ensures values == Image.ReadPairs(b, n)
  {
    hide Number;
    values := map[];
    var i := 0;
    while i < n
      invariant i <= n && values == Image.ReadPairs(b, i)
    {
      var at := 16 + 16 * i;
      values := values[Number(b[at..at + 8]) := Number(b[at + 8..at + 16])];
      i := i + 1;
    }
  }

  method RowsFrom(b: seq<Byte>, start: nat, n: nat) returns (clients: map<nat, Model.Client>)
    requires start + 32 * n <= |b|
    ensures clients == Image.ReadRows(b, start, n)
  {
    hide Number;
    clients := map[];
    var i := 0;
    while i < n
      invariant i <= n && clients == Image.ReadRows(b, start, i)
    {
      var at := start + 32 * i;
      var record := Model.Client(Number(b[at + 8..at + 16]), Number(b[at + 16..at + 24]), b[at + 24] == 1);
      clients := clients[Number(b[at..at + 8]) := record];
      i := i + 1;
    }
  }
}
