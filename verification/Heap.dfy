/** Binary heaps of scheduled events, stored level by level. */
module Heap {
  import opened Quorums
  import opened Schedule

  function Parent(i: nat): nat
    requires 0 < i
  {
    (i - 1) / 2
  }

  /** No event is earlier than its parent, as far as parents from `lo` on are concerned. */
  ghost predicate HeapFrom<M>(q: seq<Event<M>>, lo: nat) {
    forall i {:trigger q[i]} :: 0 < i < |q| && lo <= Parent(i) ==> !Earlier(q[i], q[Parent(i)])
  }

  ghost predicate IsHeap<M>(q: seq<Event<M>>) {
    HeapFrom(q, 0)
  }

  /** The root of a heap is a minimum. */
  lemma {:induction false} RootIsEarliest<M>(q: seq<Event<M>>, i: nat)
    requires IsHeap(q) && i < |q|
    ensures !Earlier(q[i], q[0])
    decreases i
  {
    if i > 0 {
      RootIsEarliest(q, Parent(i));
      assert !Earlier(q[i], q[Parent(i)]);
    }
  }

  function Swap<M>(q: seq<Event<M>>, i: nat, j: nat): (r: seq<Event<M>>)
    requires i < |q| && j < |q|
    ensures |r| == |q|
  {
    q[i := q[j]][j := q[i]]
  }

  // ----- Contents -----

  ghost function Contents<M(!new)>(q: seq<Event<M>>): set<Event<M>> {
    set e | e in q
  }

  /** No two places hold the same sequence number. */
  ghost predicate Unique<M>(q: seq<Event<M>>) {
    forall i, j :: 0 <= i < j < |q| ==> q[i].seqNo != q[j].seqNo
  }

  ghost predicate Numbered<M>(q: seq<Event<M>>, last: nat) {
    forall e :: e in q ==> e.seqNo <= last
  }

  lemma UniqueIsDistinct<M(!new)>(q: seq<Event<M>>)
    requires Unique(q)
    ensures Distinct(Contents(q))
  {
  }

  lemma {:induction false} ContentsSize<M(!new)>(q: seq<Event<M>>)
    requires Unique(q)
    ensures |Contents(q)| == |q|
  {
    if q != [] {
      var k := |q| - 1;
      ContentsSize(q[..k]);
      assert q == q[..k] + [q[k]];
      assert Contents(q) == Contents(q[..k]) + {q[k]};
      assert q[k] !in q[..k];
    }
  }

  lemma SwapKeeps<M(!new)>(q: seq<Event<M>>, i: nat, j: nat)
    requires i < |q| && j < |q| && Unique(q)
    ensures Contents(Swap(q, i, j)) == Contents(q) && Unique(Swap(q, i, j))
  {
    var r := Swap(q, i, j);
    forall e | e in q ensures e in r {
      var k :| 0 <= k < |q| && q[k] == e;
      assert r[if k == i then j else if k == j then i else k] == e;
    }
  }

  lemma AppendKeeps<M(!new)>(q: seq<Event<M>>, e: Event<M>)
    requires Unique(q) && forall f :: f in q ==> f.seqNo != e.seqNo
    ensures Contents(q + [e]) == Contents(q) + {e} && Unique(q + [e])
  {
  }

  /** What is left when the last event takes the place of the first. */
  function DropFirst<M>(q: seq<Event<M>>): seq<Event<M>>
    requires 0 < |q|
  {
    var k := |q| - 1;
    q[0 := q[k]][..k]
  }

  lemma DropFirstKeeps<M(!new)>(q: seq<Event<M>>)
    requires 0 < |q| && Unique(q) && IsHeap(q)
    ensures Contents(DropFirst(q)) == Contents(q) - {q[0]} && Unique(DropFirst(q)) && Sinking(DropFirst(q), 0, 0)
  {
    var r, k := DropFirst(q), |q| - 1;
    forall e | e in q && e != q[0] ensures e in r {
      var i :| 0 <= i < |q| && q[i] == e;
      assert r[if i == k then 0 else i] == e;
    }
  }

  /** The root of a heap with unique numbers is the next delivery. */
  lemma RootIsNext<M(!new)>(q: seq<Event<M>>)
    requires 0 < |q| && Unique(q) && IsHeap(q)
    ensures Contents(q) != {} && q[0] == Earliest(Contents(q))
  {
    forall f | f in q ensures !Earlier(f, q[0]) {
      var i :| 0 <= i < |q| && q[i] == f;
      RootIsEarliest(q, i);
    }
    assert q[0] in Contents(q);
    UniqueIsDistinct(q);
    EarliestUnique(Contents(q), q[0], Earliest(Contents(q)));
  }

  // ----- Filtering -----

  /** The events that do not touch `node`, in place. */
  function Filter<M>(q: seq<Event<M>>, node: Id): seq<Event<M>> {
    if q == [] then []
    else
      var rest, last := Filter(q[..|q| - 1], node), q[|q| - 1];
      if Touches(last, node) then rest else rest + [last]
  }

  lemma {:induction false} FilterKeeps<M(!new)>(q: seq<Event<M>>, node: Id)
    requires Unique(q)
    ensures Contents(Filter(q, node)) == Keep(Contents(q), node) && Unique(Filter(q, node))
  {
    if q != [] {
      var k := |q| - 1;
      FilterKeeps(q[..k], node);
      assert q == q[..k] + [q[k]];
      assert Contents(q) == Contents(q[..k]) + {q[k]};
      var rest := Filter(q[..k], node);
      forall i | 0 <= i < |rest| ensures rest[i].seqNo != q[k].seqNo {
        assert rest[i] in Contents(rest) && rest[i] in q[..k];
      }
      assert Contents(rest + [q[k]]) == Contents(rest) + {q[k]};
    }
  }

  /** What a filter leaves out is what it cuts. */
  lemma FilterCuts<M(!new)>(q: seq<Event<M>>, node: Id)
    requires Unique(q)
    ensures |Filter(q, node)| <= |q| && |Cut(Contents(q), node)| == |q| - |Filter(q, node)|
  {
    FilterKeeps(q, node);
    ContentsSize(q);
    ContentsSize(Filter(q, node));
    assert Contents(q) == Keep(Contents(q), node) + Cut(Contents(q), node);
  }

  /** Two stores with unique numbers and the same contents hold the same bag of events. */
  lemma SameBag<M(!new)>(q: seq<Event<M>>, r: seq<Event<M>>)
    requires Unique(q) && Unique(r) && Contents(q) == Contents(r)
    ensures multiset(q) == multiset(r)
  {
    forall e ensures multiset(q)[e] == multiset(r)[e] {
      CountsOnce(q, e);
      CountsOnce(r, e);
      assert e in q <==> e in Contents(q);
    }
  }

  lemma {:induction false} CountsOnce<M(!new)>(q: seq<Event<M>>, e: Event<M>)
    requires Unique(q)
    ensures multiset(q)[e] == if e in q then 1 else 0
  {
    if q != [] {
      var k := |q| - 1;
      CountsOnce(q[..k], e);
      assert q == q[..k] + [q[k]];
      if q[k] == e { assert e !in q[..k]; }
    }
  }

  // ----- Moving an event up -----

  /** A heap but for the event at `hole`, which may be too far down. */
  ghost predicate Rising<M>(q: seq<Event<M>>, hole: nat) {
    && hole < |q|
    && (forall i {:trigger q[i]} :: 0 < i < |q| && i != hole ==> !Earlier(q[i], q[Parent(i)]))
    && (forall i {:trigger q[i]} :: 0 < i < |q| && 0 < hole && Parent(i) == hole ==> !Earlier(q[i], q[Parent(hole)]))
  }

  lemma RiseOnce<M>(q: seq<Event<M>>, hole: nat)
    requires Rising(q, hole) && 0 < hole && Earlier(q[hole], q[Parent(hole)])
    ensures Rising(Swap(q, hole, Parent(hole)), Parent(hole))
  {
    var up := Parent(hole);
    var r := Swap(q, hole, up);
    forall i {:trigger r[i]} | 0 < i < |r| && i != up ensures !Earlier(r[i], r[Parent(i)]) {
      assert !Earlier(q[i], q[Parent(i)]) || i == hole;
    }
    forall i {:trigger r[i]} | 0 < i < |r| && 0 < up && Parent(i) == up ensures !Earlier(r[i], r[Parent(up)]) {
      assert !Earlier(q[up], q[Parent(up)]);
      assert i == hole || !Earlier(q[i], q[up]);
    }
  }

  // ----- Moving an event down -----

  /** A heap from `lo` on but for the event at `hole`, which may be too far up. */
  ghost predicate Sinking<M>(q: seq<Event<M>>, lo: nat, hole: nat) {
    && lo <= hole
    && (forall i {:trigger q[i]} :: 0 < i < |q| && lo <= Parent(i) && Parent(i) != hole ==> !Earlier(q[i], q[Parent(i)]))
    && (forall i {:trigger q[i]} :: 0 < i < |q| && Parent(i) == hole && 0 < hole < |q| && lo <= Parent(hole) ==> !Earlier(q[i], q[Parent(hole)]))
  }

  /** `s` is the smallest of `i` and its children. */
  ghost predicate Smallest<M>(q: seq<Event<M>>, i: nat, s: nat) {
    && i < |q| && s < |q| && (s == i || (0 < s && Parent(s) == i))
    && (s != i ==> Earlier(q[s], q[i]))
    && (forall c {:trigger q[c]} :: 0 < c < |q| && Parent(c) == i ==> !Earlier(q[c], q[s]))
  }

  lemma SinkOnce<M>(q: seq<Event<M>>, lo: nat, hole: nat, s: nat)
    requires Sinking(q, lo, hole) && hole < |q| && Smallest(q, hole, s) && s != hole
    ensures Sinking(Swap(q, hole, s), lo, s)
  {
    var r := Swap(q, hole, s);
    forall i {:trigger r[i]} | 0 < i < |r| && lo <= Parent(i) && Parent(i) != s ensures !Earlier(r[i], r[Parent(i)]) {
      assert Parent(i) == hole || !Earlier(q[i], q[Parent(i)]);
      assert Parent(i) != hole || !Earlier(q[i], q[s]);
    }
    forall i {:trigger r[i]} | 0 < i < |r| && Parent(i) == s && 0 < s < |r| && lo <= Parent(s) ensures !Earlier(r[i], r[Parent(s)]) {
      assert !Earlier(q[i], q[s]);
    }
  }

  lemma Sunk<M>(q: seq<Event<M>>, lo: nat, hole: nat)
    requires Sinking(q, lo, hole) && (hole >= |q| || Smallest(q, hole, hole))
    ensures HeapFrom(q, lo)
  {
  }
}
