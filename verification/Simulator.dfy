/** The reference simulator: a run whose schedule is a plain list scanned for the next delivery. */
module Simulator {
  import opened Quorums
  import opened Schedule
  import opened Heap

  datatype Scheduled<M> = Scheduled(at: nat, seqNo: nat, msg: M)

  /** The list entry as an event; its endpoints are those of the message. */
  function Lift<S, M>(p: Config<S, M>, s: Scheduled<M>): Event<M> {
    var (from, to) := p.world.route(s.msg);
    Event(s.at, s.seqNo, from, to, s.msg)
  }

  function LiftAll<S, M>(p: Config<S, M>, q: seq<Scheduled<M>>): seq<Event<M>> {
    seq(|q|, i requires 0 <= i < |q| => Lift(p, q[i]))
  }

  class Simulator<S(!new), M(!new)> {
    const config: Config<S, M>
    var now: nat
    var cluster: S
    var drawn: seq<nat>
    var seqNo: nat
    var queue: seq<Scheduled<M>>
    var trace: seq<Record>
    ghost var isolated: nat

    ghost function Events(): seq<Event<M>>
      reads this
    {
      LiftAll(config, queue)
    }

    ghost predicate Valid()
      reads this
    {
      Unique(Events()) && Numbered(Events(), seqNo) && config.injectors == []
    }

    ghost function View(): Exec<S, M>
      reads this
    {
      Exec(now, cluster, drawn, seqNo, Contents(Events()), trace, map[], isolated)
    }

    constructor (config: Config<S, M>, cluster: S)
      requires config.injectors == []
      ensures Valid() && this.config == config
      ensures View() == Exec(0, cluster, [], 0, {}, [], map[], 0)
    {
      this.config, this.cluster := config, cluster;
      now, drawn, seqNo, queue, trace, isolated := 0, [], 0, [], [], 0;
    }

    // ----- Collecting -----

    method Put(m: M)
      requires Valid()
      modifies this`drawn, this`seqNo, this`queue
      ensures Valid() && View() == Schedule.Put(config, old(View()), m)
    {
      if config.drop > 0 {
        var r := Drawn(config, drawn, 1000);
        drawn := drawn + [1000];
        if r < config.drop { return; }
      }
      var delay := 0;
      if config.delay > 0 {
        delay := Drawn(config, drawn, config.delay + 1);
        drawn := drawn + [config.delay + 1];
      }
      Append(m, delay);
    }

    method Append(m: M, delay: nat)
      requires Valid()
      modifies this`seqNo, this`queue
      ensures Valid() && View() == Enter(config, old(View()), m, delay)
    {
      var s := Scheduled(now + delay, seqNo + 1, m);
      AppendKeeps(Events(), Lift(config, s));
      assert LiftAll(config, queue + [s]) == Events() + [Lift(config, s)];
      seqNo := seqNo + 1;
      queue := queue + [s];
    }

    method PutAll(ms: seq<M>)
      requires Valid()
      modifies this`drawn, this`seqNo, this`queue
      ensures Valid() && View() == Schedule.PutAll(config, old(View()), ms)
    {
      var j := 0;
      assert ms[0..] == ms;
      while j < |ms|
        invariant j <= |ms| && Valid()
        invariant Schedule.PutAll(config, View(), ms[j..]) == Schedule.PutAll(config, old(View()), ms)
      {
        assert ms[j..][1..] == ms[j + 1..];
        Put(ms[j]);
        j := j + 1;
      }
    }

    method Collect()
      requires Valid()
      modifies this`cluster, this`drawn, this`seqNo, this`queue
      ensures Valid() && View() == Schedule.Collect(config, old(View()))
    {
      var ids := config.world.nodes(cluster);
      var i := 0;
      assert ids[0..] == ids;
      while i < |ids|
        invariant i <= |ids| && Valid()
        invariant CollectFrom(config, View(), ids[i..]) == CollectFrom(config, old(View()), ids)
      {
        assert ids[i..][1..] == ids[i + 1..];
        var (drained, ms) := config.world.drain(cluster, ids[i]);
        cluster := drained;
        PutAll(ms);
        i := i + 1;
      }
    }

    // ----- Steps -----

    /** The place of the earliest message that is due, or -1. */
    method NextReady() returns (best: int)
      requires Valid()
      ensures best < 0 <==> !Due(View())
      ensures best >= 0 ==> best < |queue| && Due(View()) && Lift(config, queue[best]) == Earliest(View().queue)
    {
      best := -1;
      var i := 0;
      while i < |queue|
        invariant i <= |queue| && -1 <= best < i
        invariant best < 0 ==> forall k :: 0 <= k < i ==> queue[k].at > now
        invariant best >= 0 ==> queue[best].at <= now && forall k :: 0 <= k < i ==> !Earlier(Events()[k], Events()[best])
      {
        if queue[i].at <= now && (best < 0 || queue[i].at < queue[best].at || (queue[i].at == queue[best].at && queue[i].seqNo < queue[best].seqNo)) {
          best := i;
        }
        i := i + 1;
      }
      ScanFinds(best);
    }

    lemma ScanFinds(best: int)
      requires Valid() && -1 <= best < |queue|
      requires best < 0 ==> forall k :: 0 <= k < |queue| ==> queue[k].at > now
      requires best >= 0 ==> queue[best].at <= now && forall k :: 0 <= k < |queue| ==> !Earlier(Events()[k], Events()[best])
      ensures best < 0 <==> !Due(View())
      ensures best >= 0 ==> Due(View()) && Lift(config, queue[best]) == Earliest(View().queue)
    {
      var q := Events();
      if best >= 0 {
        forall f | f in q ensures !Earlier(f, q[best]) {
          var k :| 0 <= k < |q| && q[k] == f;
        }
        assert q[best] in Contents(q);
        UniqueIsDistinct(q);
        EarliestUnique(Contents(q), q[best], Earliest(Contents(q)));
      } else if Contents(q) != {} {
        var k :| 0 <= k < |q| && q[k] == Earliest(Contents(q));
      }
    }

    method TickAll()
      modifies this`cluster
      ensures cluster == Schedule.TickAll(config, old(cluster), config.world.nodes(old(cluster)))
    {
      var ids := config.world.nodes(cluster);
      var i := 0;
      assert ids[0..] == ids;
      while i < |ids|
        invariant i <= |ids|
        invariant Schedule.TickAll(config, cluster, ids[i..]) == Schedule.TickAll(config, old(cluster), ids)
      {
        assert ids[i..][1..] == ids[i + 1..];
        cluster := config.world.tick(cluster, ids[i]);
        i := i + 1;
      }
    }

    method Remove(at: nat)
      requires Valid() && at < |queue|
      modifies this`queue
      ensures Valid() && Contents(Events()) == old(Contents(Events())) - {old(Lift(config, queue[at]))}
    {
      ghost var q, e := Events(), Lift(config, queue[at]);
      assert q[at] == e;
      queue := queue[..at] + queue[at + 1..];
      assert Events() == q[..at] + q[at + 1..];
      RemoveKeeps(q, at);
    }

    method DeliverAt(at: nat)
      requires Valid() && at < |queue| && Due(View()) && Lift(config, queue[at]) == Earliest(View().queue)
      modifies this
      ensures Valid() && View() == Schedule.Deliver(config, old(View()))
    {
      hide Unique, LiftAll, Schedule.Collect, RecordOf;
      var s := queue[at];
      var e := Lift(config, s);
      Remove(at);
      trace := trace + [RecordOf(config, now, e)];
      cluster := config.world.deliver(cluster, e.to, s.msg);
      assert View() == Take(config, old(View()), e);
      Collect();
    }

    method Begin()
      requires Valid()
      modifies this
      ensures Valid() && View() == Schedule.Begin(config, old(View()))
    {
      hide Unique, LiftAll, Schedule.Collect, Schedule.TickAll;
      now := now + 1;
      TickAll();
      Collect();
    }

    /** One unit of virtual time; `fuel` bounds how many deliveries may cascade in it. */
    method Step(fuel: nat) returns (settled: bool)
      requires Valid()
      modifies this
      ensures Valid() && View() == Schedule.Step(config, old(View()), fuel) && settled == !Due(View())
    {
      hide Unique, LiftAll, Schedule.Deliver, Schedule.Begin;
      Begin();
      ghost var begun := View();
      var left := fuel;
      var at := NextReady();
      while left > 0 && at >= 0
        invariant Valid() && Settle(config, View(), left) == Settle(config, begun, fuel)
        invariant at < 0 <==> !Due(View())
        invariant at >= 0 ==> at < |queue| && Due(View()) && Lift(config, queue[at]) == Earliest(View().queue)
        decreases left
      {
        DeliverAt(at);
        left := left - 1;
        at := NextReady();
      }
      settled := at < 0;
    }

    // ----- Calls from outside -----

    /** Keeps only the messages that neither come from nor go to `node`. */
    method Forget(node: Id)
      requires Valid()
      modifies this`queue, this`isolated
      ensures Valid() && View() == Schedule.Isolate(old(View()), node)
    {
      ghost var q := Events();
      FilterCuts(q, node);
      FilterKeeps(q, node);
      var kept: seq<Scheduled<M>> := [];
      var i := 0;
      while i < |queue|
        invariant i <= |queue| && queue == old(queue)
        invariant LiftAll(config, kept) == Filter(q[..i], node)
      {
        assert q[..i + 1][..i] == q[..i];
        var e := Lift(config, queue[i]);
        if e.from != node && e.to != node {
          assert LiftAll(config, kept + [queue[i]]) == LiftAll(config, kept) + [e];
          kept := kept + [queue[i]];
        }
        i := i + 1;
      }
      assert q[..i] == q;
      isolated := isolated + (|q| - |Filter(q, node)|);
      queue := kept;
      assert forall e :: e in Events() ==> e in Contents(Events());
      assert forall e :: e in Contents(q) ==> e in q;
    }

    method Perform(a: Action<S>)
      requires Valid()
      modifies this
      ensures Valid() && View() == Schedule.Perform(config, old(View()), a)
    {
      hide Unique, LiftAll, Schedule.Step, Schedule.Collect;
      match a {
        case Advance(fuel) => var settled := Step(fuel);
        case Drive(change) =>
          cluster := change(cluster);
          Collect();
        case Restart(node, rebuild) =>
          cluster := rebuild(cluster);
          Forget(node);
      }
    }

    method Run(script: seq<Action<S>>)
      requires Valid()
      modifies this
      ensures Valid() && View() == PerformAll(config, old(View()), script)
    {
      hide Unique, LiftAll, Schedule.Perform;
      var i := 0;
      assert script[0..] == script;
      while i < |script|
        invariant i <= |script| && Valid()
        invariant PerformAll(config, View(), script[i..]) == PerformAll(config, old(View()), script)
      {
        assert script[i..][1..] == script[i + 1..];
        Perform(script[i]);
        i := i + 1;
      }
    }
  }

  lemma RemoveKeeps<M(!new)>(q: seq<Event<M>>, at: nat)
    requires Unique(q) && at < |q|
    ensures Unique(q[..at] + q[at + 1..]) && Contents(q[..at] + q[at + 1..]) == Contents(q) - {q[at]}
  {
    var r := q[..at] + q[at + 1..];
    forall e | e in q && e != q[at] ensures e in r {
      var k :| 0 <= k < |q| && q[k] == e;
      assert r[if k < at then k else k - 1] == e;
    }
  }
}
