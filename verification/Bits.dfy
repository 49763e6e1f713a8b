/**
 * Node sets kept as 64-bit masks: bit `id - 1` stands for node `id`.
 *
 * A mask is the natural number its 64 bits spell, and the bitwise operators are defined on
 * binary digits, so that the counting loop of the source can be compared with set size.
 */
module Bits {
  import opened Quorums

  const WIDTH: nat := 64

  function Pow2(n: nat): (r: nat)
    ensures 0 < r
  {
    if n == 0 then 1 else 2 * Pow2(n - 1)
  }

  type Mask = m: nat | m < Pow2(WIDTH)

  predicate NodeId(id: Id) {
    1 <= id <= WIDTH
  }

  function And(a: nat, b: nat): nat {
    if a == 0 || b == 0 then 0 else (a % 2) * (b % 2) + 2 * And(a / 2, b / 2)
  }

  function Or(a: nat, b: nat): nat {
    if a == 0 then b else if b == 0 then a
    else (if a % 2 == 1 || b % 2 == 1 then 1 else 0) + 2 * Or(a / 2, b / 2)
  }

  predicate Has(mask: nat, i: nat) {
    if i == 0 then mask % 2 == 1 else Has(mask / 2, i - 1)
  }

  function NodeBit(id: Id): (bit: Mask)
    requires NodeId(id)
    ensures 0 < bit
  {
    Pow2Grows(id - 1, WIDTH - 1);
    Pow2(id - 1)
  }

  /** The nodes a mask stands for. */
  function Members(mask: nat): set<Id> {
    set id: Id | 1 <= id <= WIDTH && InMask(mask, id)
  }

  predicate InMask(mask: nat, id: Id) {
    NodeId(id) && Has(mask, id - 1)
  }

  lemma Pow2Grows(a: nat, b: nat)
    requires a <= b
    ensures 0 < Pow2(a) <= Pow2(b)
  {
    if a < b { Pow2Grows(a, b - 1); } else if a > 0 { Pow2Grows(a - 1, b - 1); }
  }

  lemma AndHas(a: nat, b: nat, i: nat)
    ensures Has(And(a, b), i) <==> Has(a, i) && Has(b, i)
  {
    if a == 0 || b == 0 {
      ZeroHasNone(i);
    } else {
      HalfOfSum((a % 2) * (b % 2), And(a / 2, b / 2));
      if i > 0 { AndHas(a / 2, b / 2, i - 1); }
    }
  }

  lemma OrHas(a: nat, b: nat, i: nat)
    ensures Has(Or(a, b), i) <==> Has(a, i) || Has(b, i)
  {
    if a == 0 || b == 0 {
      ZeroHasNone(i);
    } else {
      HalfOfSum(if a % 2 == 1 || b % 2 == 1 then 1 else 0, Or(a / 2, b / 2));
      if i > 0 { OrHas(a / 2, b / 2, i - 1); }
    }
  }

  lemma HalfOfSum(bit: nat, rest: nat)
    requires bit <= 1
    ensures (bit + 2 * rest) % 2 == bit && (bit + 2 * rest) / 2 == rest
  {
  }

  lemma ZeroHasNone(i: nat)
    ensures !Has(0, i)
  {
  }

  lemma BitHas(n: nat, i: nat)
    ensures Has(Pow2(n), i) <==> i == n
  {
    if n == 0 {
      if i > 0 { ZeroHasNone(i - 1); }
    } else {
      HalfOfSum(0, Pow2(n - 1));
      if i > 0 { BitHas(n - 1, i - 1); }
    }
  }

  lemma AndMembers(a: nat, b: nat)
    ensures Members(And(a, b)) == Members(a) * Members(b)
  {
    forall id: Id | NodeId(id) ensures InMask(And(a, b), id) <==> InMask(a, id) && InMask(b, id) {
      AndHas(a, b, id - 1);
    }
  }

  lemma OrMembers(a: nat, b: nat)
    ensures Members(Or(a, b)) == Members(a) + Members(b)
  {
    forall id: Id | NodeId(id) ensures InMask(Or(a, b), id) <==> InMask(a, id) || InMask(b, id) {
      OrHas(a, b, id - 1);
    }
  }

  lemma BitMembers(id: Id)
    requires NodeId(id)
    ensures Members(NodeBit(id)) == {id}
  {
    forall x: Id | NodeId(x) ensures InMask(NodeBit(id), x) <==> x == id { BitHas(id - 1, x - 1); }
  }

  lemma ZeroMembers()
    ensures Members(0) == {}
  {
    forall x: Id | NodeId(x) ensures !InMask(0, x) { ZeroHasNone(x - 1); }
  }

  lemma OrBound(a: nat, b: nat, k: nat)
    requires a < Pow2(k) && b < Pow2(k)
    ensures Or(a, b) < Pow2(k)
  {
    if a != 0 && b != 0 { OrBound(a / 2, b / 2, k - 1); }
  }

  lemma AndBound(a: nat, b: nat)
    ensures And(a, b) <= a
  {
    if a != 0 && b != 0 { AndBound(a / 2, b / 2); }
  }

  // ----- Counting -----

  function Popcount(mask: nat): nat {
    if mask == 0 then 0 else mask % 2 + Popcount(mask / 2)
  }

  /** Clearing the lowest set bit, as the source's loop does. */
  lemma ClearLowest(m: nat)
    requires 0 < m
    ensures And(m, m - 1) < m && Popcount(And(m, m - 1)) + 1 == Popcount(m)
  {
    if m % 2 == 1 {
      if m > 1 {
        AndSelf(m / 2);
        assert (m - 1) / 2 == m / 2;
        assert And(m, m - 1) == m - 1;
      }
    } else {
      assert (m - 1) / 2 == m / 2 - 1 && (m - 1) % 2 == 1;
      ClearLowest(m / 2);
      HalfOfSum(0, And(m / 2, m / 2 - 1));
    }
  }

  lemma AndSelf(m: nat)
    ensures And(m, m) == m
  {
    if m != 0 { AndSelf(m / 2); }
  }

  lemma {:induction false} PopcountPositive(m: nat)
    requires 0 < m
    ensures 0 < Popcount(m)
  {
    if m % 2 == 0 { PopcountPositive(m / 2); }
  }

  /** Clears the lowest bit until none is left, counting the rounds. */
  method BitsSet(mask: nat) returns (count: nat)
    ensures count == Popcount(mask)
  {
    var m := mask;
    count := 0;
    while m != 0
      invariant count + Popcount(m) == Popcount(mask)
    {
      ClearLowest(m);
      m := And(m, m - 1);
      count := count + 1;
    }
  }

  /** The counted bits are the members. */
  lemma PopcountIsSize(mask: Mask)
    ensures Popcount(mask) == |Members(mask)|
  {
    PopcountIsSizeBelow(mask, WIDTH);
    forall i | i in Positions(mask, WIDTH) ensures i + 1 in Members(mask) { assert InMask(mask, i + 1); }
    ShiftedSize(Positions(mask, WIDTH), Members(mask));
  }

  function Positions(mask: nat, k: nat): set<nat> {
    set i: nat | 0 <= i < k && Has(mask, i)
  }

  lemma {:induction false} ShiftedSize(a: set<nat>, b: set<nat>)
    requires forall y :: y in b <==> 0 < y && y - 1 in a
    ensures |a| == |b|
    decreases |a|
  {
    if a == {} {
      assert b == {};
    } else {
      var x :| x in a;
      assert x + 1 in b;
      ShiftedSize(a - {x}, b - {x + 1});
    }
  }

  lemma PopcountIsSizeBelow(mask: nat, k: nat)
    requires mask < Pow2(k)
    ensures Popcount(mask) == |Positions(mask, k)|
  {
    var all := Positions(mask, k);
    if k == 0 {
      assert all == {};
    } else {
      PopcountIsSizeBelow(mask / 2, k - 1);
      ShiftedSize(Positions(mask / 2, k - 1), all - {0});
      assert all - {0} == if Has(mask, 0) then all - {0} else all;
    }
  }

  // ----- Majorities -----

  lemma {:induction false} AndCommutes(a: nat, b: nat)
    ensures And(a, b) == And(b, a)
  {
    if a != 0 && b != 0 { AndCommutes(a / 2, b / 2); }
  }

  /** A non-empty intersection with a node's bit is membership. */
  lemma BitTest(mask: nat, id: Id)
    requires NodeId(id)
    ensures And(mask, NodeBit(id)) != 0 <==> id in Members(mask)
  {
    hide And, Popcount, NodeBit;
    var both := And(mask, NodeBit(id));
    AndMembers(mask, NodeBit(id));
    BitMembers(id);
    ZeroMembers();
    AndCommutes(mask, NodeBit(id));
    AndBound(NodeBit(id), mask);
    if both != 0 {
      PopcountIsSize(both);
      PopcountPositive(both);
    }
  }

  /** The mask form of the majority rule. */
  predicate MajorityMask(voters: nat, acked: nat) {
    voters != 0 && Popcount(And(voters, acked)) >= Popcount(voters) / 2 + 1
  }

  lemma MajorityMaskIsQuorum(voters: Mask, acked: nat)
    ensures MajorityMask(voters, acked) <==> IsQuorum(Members(voters), Members(acked))
  {
    AndBound(voters, acked);
    AndMembers(voters, acked);
    PopcountIsSize(voters);
    PopcountIsSize(And(voters, acked));
  }

  method ComputeMajorityMask(voters: nat, acked: nat) returns (r: bool)
    ensures r == MajorityMask(voters, acked)
  {
    var have := BitsSet(And(voters, acked));
    var all := BitsSet(voters);
    r := voters != 0 && have >= all / 2 + 1;
  }
}
