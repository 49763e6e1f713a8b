/**
 * The tally from which a campaign reads which values were chosen.
 *
 * It counts acceptances, not acceptors, so it is exact as long as no acceptor's history repeats
 * an entry; that is the case when no message is delivered twice, and only then for certain.
 */
module PaxosTally {
  import opened Quorums
  import opened Bits
  import opened PaxosModel
  import opened PaxosCluster
  import opened PaxosSafety

  // ----- Counting acceptances -----

  /** How often `a` occurs in the first `i` histories together. */
  function Count(hs: seq<seq<Acceptance>>, i: nat, a: Acceptance): nat
    requires i <= |hs|
  {
    if i == 0 then 0 else Count(hs, i - 1, a) + multiset(hs[i - 1])[a]
  }

  predicate Popular(hs: seq<seq<Acceptance>>, a: Acceptance) {
    Count(hs, |hs|, a) >= |hs| / 2 + 1
  }

  function Flat(hs: seq<seq<Acceptance>>, i: nat): seq<Acceptance>
    requires i <= |hs|
  {
    if i == 0 then [] else Flat(hs, i - 1) + hs[i - 1]
  }

  /** The values of the popular entries of `s`, each once, in the order they first occur. */
  function FirstSeen(hs: seq<seq<Acceptance>>, s: seq<Acceptance>): seq<nat> {
    if s == [] then []
    else
      var rest, last := FirstSeen(hs, s[..|s| - 1]), s[|s| - 1];
      if Popular(hs, last) && last.val !in rest then rest + [last.val] else rest
  }

  function Tally(hs: seq<seq<Acceptance>>): seq<nat> {
    FirstSeen(hs, Flat(hs, |hs|))
  }

  function Lookup(counts: map<Acceptance, nat>, a: Acceptance): nat {
    if a in counts then counts[a] else 0
  }

  lemma CountOneMore(h: seq<Acceptance>, j: nat, a: Acceptance)
    requires j < |h|
    ensures multiset(h[..j + 1])[a] == multiset(h[..j])[a] + if a == h[j] then 1 else 0
  {
    assert h[..j + 1] == h[..j] + [h[j]];
  }

  method CountAll(hs: seq<seq<Acceptance>>) returns (counts: map<Acceptance, nat>)
    ensures forall a :: Lookup(counts, a) == Count(hs, |hs|, a)
  {
    counts := map[];
    var i := 0;
    while i < |hs|
      invariant i <= |hs|
      invariant forall a :: Lookup(counts, a) == Count(hs, i, a)
    {
      var j := 0;
      while j < |hs[i]|
        invariant j <= |hs[i]|
        invariant forall a :: Lookup(counts, a) == Count(hs, i, a) + multiset(hs[i][..j])[a]
      {
        forall a { CountOneMore(hs[i], j, a); }
        counts := counts[hs[i][j] := Lookup(counts, hs[i][j]) + 1];
        j := j + 1;
      }
      assert hs[i][..j] == hs[i];
      i := i + 1;
    }
  }

  lemma SeenOneMore(hs: seq<seq<Acceptance>>, s: seq<Acceptance>, h: seq<Acceptance>, j: nat)
    requires j < |h|
    ensures FirstSeen(hs, s + h[..j + 1]) ==
      var rest := FirstSeen(hs, s + h[..j]);
      if Popular(hs, h[j]) && h[j].val !in rest then rest + [h[j].val] else rest
  {
    var t := s + h[..j + 1];
    assert t[..|t| - 1] == s + h[..j];
  }

  /** Counts every acceptance, then walks the histories again to keep the popular values. */
  method ChosenValues(hs: seq<seq<Acceptance>>) returns (found: seq<nat>)
    ensures found == Tally(hs)
  {
    var counts := CountAll(hs);
    found := [];
    var seen: set<nat> := {};
    var i := 0;
    while i < |hs|
      invariant i <= |hs|
      invariant found == FirstSeen(hs, Flat(hs, i))
      invariant forall v :: v in seen <==> v in found
    {
      var j := 0;
      assert Flat(hs, i) + hs[i][..0] == Flat(hs, i);
      while j < |hs[i]|
        invariant j <= |hs[i]|
        invariant found == FirstSeen(hs, Flat(hs, i) + hs[i][..j])
        invariant forall v :: v in seen <==> v in found
      {
        var a := hs[i][j];
        SeenOneMore(hs, Flat(hs, i), hs[i], j);
        if Lookup(counts, a) >= |hs| / 2 + 1 && a.val !in seen {
          seen := seen + {a.val};
          found := found + [a.val];
        }
        j := j + 1;
      }
      assert hs[i][..j] == hs[i];
      i := i + 1;
    }
  }

  // ----- What the tally means -----

  lemma {:induction false} FirstSeenAre(hs: seq<seq<Acceptance>>, s: seq<Acceptance>, v: nat)
    ensures v in FirstSeen(hs, s) <==> exists a :: a in s && Popular(hs, a) && a.val == v
    ensures forall i, j :: 0 <= i < j < |FirstSeen(hs, s)| ==> FirstSeen(hs, s)[i] != FirstSeen(hs, s)[j]
  {
    if s != [] {
      var t, last := s[..|s| - 1], s[|s| - 1];
      FirstSeenAre(hs, t, v);
      assert s == t + [last];
      assert forall i :: 0 <= i < |FirstSeen(hs, t)| ==> FirstSeen(hs, t)[i] in FirstSeen(hs, t);
      if v in FirstSeen(hs, t) {
        var a :| a in t && Popular(hs, a) && a.val == v;
        assert a in s;
      }
    }
  }

  lemma {:induction false} FlatHas(hs: seq<seq<Acceptance>>, i: nat, a: Acceptance)
    requires i <= |hs|
    ensures 0 < Count(hs, i, a) ==> a in Flat(hs, i)
  {
    if i > 0 { FlatHas(hs, i - 1, a); }
  }

  /** The tally returns the values with enough acceptances, each once. */
  lemma TallyAre(hs: seq<seq<Acceptance>>, v: nat)
    ensures v in Tally(hs) <==> exists num: nat :: Popular(hs, Acceptance(num, v))
    ensures forall i, j :: 0 <= i < j < |Tally(hs)| ==> Tally(hs)[i] != Tally(hs)[j]
  {
    FirstSeenAre(hs, Flat(hs, |hs|), v);
    if v in Tally(hs) {
      var a :| a in Flat(hs, |hs|) && Popular(hs, a) && a.val == v;
      assert Popular(hs, Acceptance(a.num, v));
    }
    if num: nat :| Popular(hs, Acceptance(num, v)) { FlatHas(hs, |hs|, Acceptance(num, v)); }
  }

  // ----- Acceptances and acceptors -----

  function Holders(hs: seq<seq<Acceptance>>, i: nat, a: Acceptance): set<nat>
    requires i <= |hs|
  {
    set k: nat | k < i && a in hs[k]
  }

  ghost predicate NoRepeats(h: seq<Acceptance>) {
    forall a :: multiset(h)[a] <= 1
  }

  /** Counting acceptances never misses an acceptor, and counts none twice without repeats. */
  lemma {:induction false} CountHolders(hs: seq<seq<Acceptance>>, i: nat, a: Acceptance)
    requires i <= |hs|
    ensures |Holders(hs, i, a)| <= Count(hs, i, a)
    ensures (forall k :: 0 <= k < i ==> NoRepeats(hs[k])) ==> |Holders(hs, i, a)| == Count(hs, i, a)
  {
    if i > 0 {
      CountHolders(hs, i - 1, a);
      if a in hs[i - 1] {
        assert Holders(hs, i, a) == Holders(hs, i - 1, a) + {i - 1};
      } else {
        assert Holders(hs, i, a) == Holders(hs, i - 1, a);
      }
    } else {
      assert Holders(hs, 0, a) == {};
    }
  }

  /** The histories in the order of the nodes. */
  function Histories(c: Cluster): seq<seq<Acceptance>>
    requires c.nodes.Keys == Ids(c.size)
  {
    seq(c.size, i requires 0 <= i < c.size => assert i + 1 in Ids(c.size); c.nodes[i + 1].accepts)
  }

  lemma HoldersAreAcceptors(c: Cluster, a: Acceptance)
    requires c.nodes.Keys == Ids(c.size)
    ensures |Holders(Histories(c), c.size, a)| == |AcceptedBy(c, a.num, a.val)|
  {
    var hs := Histories(c);
    forall y | y in AcceptedBy(c, a.num, a.val) ensures 0 < y && y - 1 in Holders(hs, c.size, a) {
      assert y in Ids(c.size) && hs[y - 1] == c.nodes[y].accepts;
    }
    ShiftedSize(Holders(hs, c.size, a), AcceptedBy(c, a.num, a.val));
  }

  lemma ChosenBySize(c: Cluster, num: nat, val: nat)
    requires c.nodes.Keys == Ids(c.size)
    ensures ChosenAt(c, num, val) <==> |AcceptedBy(c, num, val)| >= c.size / 2 + 1
  {
    IdsCount(c.size);
    assert c.nodes.Keys * AcceptedBy(c, num, val) == AcceptedBy(c, num, val);
  }

  /** The tally reports every chosen value; it reports no other when no history repeats an entry. */
  lemma TallyIsChosen(c: Cluster, v: nat)
    requires c.nodes.Keys == Ids(c.size)
    ensures (exists num: nat :: ChosenAt(c, num, v)) ==> v in Tally(Histories(c))
    ensures (forall w :: w in c.nodes ==> NoRepeats(c.nodes[w].accepts)) ==>
      (v in Tally(Histories(c)) <==> exists num: nat :: ChosenAt(c, num, v))
  {
    var hs := Histories(c);
    TallyAre(hs, v);
    forall num: nat
      ensures ChosenAt(c, num, v) ==> Popular(hs, Acceptance(num, v))
      ensures (forall w :: w in c.nodes ==> NoRepeats(c.nodes[w].accepts)) ==> (ChosenAt(c, num, v) <==> Popular(hs, Acceptance(num, v)))
    {
      HoldersAreAcceptors(c, Acceptance(num, v));
      ChosenBySize(c, num, v);
      CountHolders(hs, c.size, Acceptance(num, v));
    }
  }
}
