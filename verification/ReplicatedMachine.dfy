/** The key-value machines behind the nodes of a cluster are copies of one machine. */
module ReplicatedMachine {
  import opened Quorums
  import opened RaftTypes
  import opened NodeModel
  import opened RaftCluster
  import Safety = RaftSafety
  import Machine = MachineModel

  /** The machine that a node has driven with every entry it has committed. */
  function MachineOf(n: NodeState): Machine.State {
    Machine.ApplyAll(Machine.EMPTY, AppliedFrom(n, 0))
  }

  /** The machine of the node that has committed less becomes the other's by applying the
      entries that it has not seen yet; with equal commit indexes the machines are equal, down
      to what they remember of their clients. */
  lemma MachinesAgree(states: seq<Cluster>, events: seq<Event>, i: nat, j: nat, a: Id, b: Id)
    requires Run(states, events) && i < |states| && j < |states| && a in states[i].nodes && b in states[j].nodes
    requires !states[i].nodes[a].faulted && !states[j].nodes[b].faulted && states[i].nodes[a].commit <= states[j].nodes[b].commit
    ensures var n, m := states[i].nodes[a], states[j].nodes[b];
      && |AppliedFrom(n, 0)| <= |AppliedFrom(m, 0)|
      && MachineOf(m) == Machine.ApplyAll(MachineOf(n), AppliedFrom(m, 0)[|AppliedFrom(n, 0)|..])
      && (n.commit == m.commit ==> MachineOf(n) == MachineOf(m))
  {
    hide Run, AppliedFrom, Machine.ApplyAll;
    var n, m := states[i].nodes[a], states[j].nodes[b];
    Safety.SameCommands(states, events, i, j, a, b);
    Machine.Resume(Machine.EMPTY, AppliedFrom(m, 0), |AppliedFrom(n, 0)|);
    assert AppliedFrom(m, 0)[..|AppliedFrom(n, 0)|] == AppliedFrom(n, 0);
    if n.commit == m.commit {
      Safety.SameCommands(states, events, j, i, b, a);
      assert AppliedFrom(n, 0) == AppliedFrom(m, 0);
    }
  }
}
