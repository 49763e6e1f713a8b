/**
 * The two forms of the quorum rule, over voter lists and over voter masks, and why quorums meet
 * along a membership change.
 */
module Membership {
  import opened Quorums
  import opened Bits
  import opened RaftTypes
  import opened NodeModel

  /** Either one voter list or, with `new'` not empty, a transition between two. */
  datatype Membership = Membership(old': seq<Id>, new': seq<Id>)

  function Acked(voters: seq<Id>, acked: set<Id>): nat {
    if voters == [] then 0 else Acked(voters[..|voters| - 1], acked) + if voters[|voters| - 1] in acked then 1 else 0
  }

  predicate IsMajority(voters: seq<Id>, acked: set<Id>) {
    voters != [] && Acked(voters, acked) >= |voters| / 2 + 1
  }

  predicate MayCommit(m: Membership, acked: set<Id>) {
    IsMajority(m.old', acked) && (m.new' == [] || IsMajority(m.new', acked))
  }

  method Majority(voters: seq<Id>, acked: set<Id>) returns (r: bool)
    ensures r == IsMajority(voters, acked)
  {
    if |voters| == 0 { return false; }
    var count := 0;
    var i := 0;
    while i < |voters|
      invariant i <= |voters| && count == Acked(voters[..i], acked)
    {
      assert voters[..i + 1][..i] == voters[..i];
      if voters[i] in acked { count := count + 1; }
      i := i + 1;
    }
    assert voters[..i] == voters;
    return count >= |voters| / 2 + 1;
  }

  method CanCommit(m: Membership, acked: set<Id>) returns (r: bool)
    ensures r == MayCommit(m, acked)
  {
    r := Majority(m.old', acked);
    if !r || |m.new'| == 0 { return; }
    r := Majority(m.new', acked);
  }

  method Contains(ids: seq<Id>, target: Id) returns (r: bool)
    ensures r <==> target in ids
  {
    var i := 0;
    while i < |ids|
      invariant i <= |ids| && target !in ids[..i]
    {
      if ids[i] == target { return true; }
      i := i + 1;
    }
    return false;
  }

  // ----- Lists and sets -----

  function Ids(voters: seq<Id>): set<Id> { set v | v in voters }

  predicate NoTwice(voters: seq<Id>) {
    forall i, j :: 0 <= i < j < |voters| ==> voters[i] != voters[j]
  }

  lemma {:induction false} CountsSet(voters: seq<Id>, acked: set<Id>)
    requires NoTwice(voters)
    ensures Acked(voters, acked) == |Ids(voters) * acked| && |Ids(voters)| == |voters|
  {
    if voters == [] {
      assert Ids(voters) == {} && Ids(voters) * acked == {};
    } else {
      var k := |voters| - 1;
      CountsSet(voters[..k], acked);
      assert voters == voters[..k] + [voters[k]];
      assert voters[k] !in Ids(voters[..k]);
      assert Ids(voters) == Ids(voters[..k]) + {voters[k]};
      AddOne(Ids(voters[..k]), voters[k], acked);
    }
  }

  lemma AddOne(s: set<Id>, x: Id, acked: set<Id>)
    requires x !in s
    ensures |(s + {x}) * acked| == |s * acked| + (if x in acked then 1 else 0) && |s + {x}| == |s| + 1
  {
    if x in acked {
      assert (s + {x}) * acked == s * acked + {x};
    } else {
      assert (s + {x}) * acked == s * acked;
    }
  }

  /** The list form asks for a majority of the voters, each counted once. */
  lemma ListIsQuorum(voters: seq<Id>, acked: set<Id>)
    requires NoTwice(voters)
    ensures IsMajority(voters, acked) <==> IsQuorum(Ids(voters), acked)
  {
    CountsSet(voters, acked);
  }

  // ----- Lists and masks -----

  /** A mask is built exactly from a list that names nobody twice, and stands for it. */
  lemma {:induction false} MaskOfList(ids: seq<Id>, k: nat, mask: nat)
    requires k <= |ids| && (forall id :: id in ids ==> NodeId(id)) && mask < Pow2(WIDTH)
    requires NoTwice(ids[..k]) && Members(mask) == Ids(ids[..k])
    ensures VoterMaskFrom(ids, k, mask).Some? <==> NoTwice(ids)
    ensures var r := VoterMaskFrom(ids, k, mask); r.Some? ==> r.value < Pow2(WIDTH) && Members(r.value) == Ids(ids)
    decreases |ids| - k
  {
    hide And, Or, Members, NodeBit;
    if k == |ids| {
      assert ids[..k] == ids;
    } else {
      BitTest(mask, ids[k]);
      assert ids[..k + 1] == ids[..k] + [ids[k]];
      if And(mask, NodeBit(ids[k])) == 0 {
        OrMembers(mask, NodeBit(ids[k]));
        BitMembers(ids[k]);
        OrBound(mask, NodeBit(ids[k]), WIDTH);
        assert Ids(ids[..k + 1]) == Ids(ids[..k]) + {ids[k]};
        MaskOfList(ids, k + 1, Or(mask, NodeBit(ids[k])));
      } else {
        assert ids[k] in ids[..k];
      }
    }
  }

  /** The mask form decides exactly as the list form. */
  lemma FormsAgree(ids: seq<Id>, acked: nat)
    requires (forall id :: id in ids ==> NodeId(id)) && VoterMask(ids).Some?
    ensures MajorityMask(VoterMask(ids).value, acked) <==> IsMajority(ids, Members(acked))
  {
    hide MajorityMask, IsMajority, VoterMaskFrom;
    ZeroMembers();
    assert ids[..0] == [];
    MaskOfList(ids, 0, 0);
    MajorityMaskIsQuorum(VoterMask(ids).value, acked);
    ListIsQuorum(ids, Members(acked));
  }

  // ----- Quorums along a change -----

  /** Any two quorums of neighbouring configurations share a voter: of the old and the joint one,
      of two joint ones, and of the joint and the new one. */
  lemma QuorumsMeetAcrossChange(old': Mask, new': Mask, a: nat, b: nat) returns (v: Id)
    requires Carries(Voters(old', new'), a) && new' != 0
    requires Carries(Voters(old', 0), b) || Carries(Voters(old', new'), b) || Carries(Voters(new', 0), b)
    ensures v in Members(a) && v in Members(b) && (v in Members(old') || v in Members(new'))
  {
    hide MajorityMask, Members;
    MajorityMaskIsQuorum(old', a);
    MajorityMaskIsQuorum(new', a);
    MajorityMaskIsQuorum(old', b);
    MajorityMaskIsQuorum(new', b);
    if MajorityMask(old', b) {
      v := QuorumsMeet(Members(old'), Members(a), Members(b));
    } else {
      v := QuorumsMeet(Members(new'), Members(a), Members(b));
    }
  }

  /** Without the joint step they need not: two single configurations may decide apart. */
  lemma DisjointWithoutJoint()
    ensures Carries(Voters(1, 0), 1) && Carries(Voters(2, 0), 2) && Members(1) * Members(2) == {}
  {
    assert NodeBit(1) == 1 && NodeBit(2) == 2;
    BitMembers(1);
    BitMembers(2);
    assert And(1, 1) == 1 && And(2, 2) == 2 && Popcount(1) == 1 && Popcount(2) == 1;
  }
}
