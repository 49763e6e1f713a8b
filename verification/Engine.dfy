/** The engine: a run whose schedule is a binary heap kept in place. */
module Engine {
  import opened Quorums
  import opened Schedule
  import opened Heap

  class Engine<S(!new), M(!new)> {
    const config: Config<S, M>
    var now: nat
    var cluster: S
    var drawn: seq<nat>
    var seqNo: nat
    var queue: seq<Event<M>>
    var trace: seq<Record>
    var injected: map<string, nat>
    ghost var isolated: nat

    ghost predicate Valid()
      reads this
    {
      IsHeap(queue) && Unique(queue) && Numbered(queue, seqNo)
    }

    ghost function View(): Exec<S, M>
      reads this
    {
      Exec(now, cluster, drawn, seqNo, Contents(queue), trace, injected, isolated)
    }

    constructor (config: Config<S, M>, cluster: S)
      ensures Valid() && this.config == config
      ensures View() == Exec(0, cluster, [], 0, {}, [], map[], 0)
    {
      this.config, this.cluster := config, cluster;
      now, drawn, seqNo, queue, trace, injected, isolated := 0, [], 0, [], [], map[], 0;
    }

    // ----- The heap -----

    method Push(ev: Event<M>)
      requires IsHeap(queue) && Unique(queue) && forall f :: f in queue ==> f.seqNo != ev.seqNo
      modifies this`queue
      ensures IsHeap(queue) && Unique(queue) && Contents(queue) == old(Contents(queue)) + {ev}
    {
      AppendKeeps(queue, ev);
      queue := queue + [ev];
      var i: nat := |queue| - 1;
      while i > 0
        invariant Rising(queue, i) && Unique(queue) && Contents(queue) == old(Contents(queue)) + {ev}
      {
        var parent := (i - 1) / 2;
        if !Earlier(queue[i], queue[parent]) { break; }
        RiseOnce(queue, i);
        SwapKeeps(queue, i, parent);
        queue := Swap(queue, i, parent);
        i := parent;
      }
    }

    /** Moves the event at `i` down until neither child is earlier. */
    method SiftDown(at: nat)
      requires Unique(queue) && Sinking(queue, at, at)
      modifies this`queue
      ensures HeapFrom(queue, at) && Unique(queue) && Contents(queue) == old(Contents(queue)) && |queue| == old(|queue|)
    {
      var i: nat := at;
      while i < |queue|
        invariant Sinking(queue, at, i) && Unique(queue) && Contents(queue) == old(Contents(queue)) && |queue| == old(|queue|)
        decreases |queue| - i
      {
        var left, smallest := 2 * i + 1, i;
        if left < |queue| && Earlier(queue[left], queue[smallest]) { smallest := left; }
        if left + 1 < |queue| && Earlier(queue[left + 1], queue[smallest]) { smallest := left + 1; }
        assert Smallest(queue, i, smallest);
        if smallest == i { break; }
        SinkOnce(queue, at, i, smallest);
        SwapKeeps(queue, i, smallest);
        queue := Swap(queue, i, smallest);
        i := smallest;
      }
      Sunk(queue, at, i);
    }

    method Pop() returns (top: Event<M>)
      requires IsHeap(queue) && Unique(queue) && 0 < |queue|
      modifies this`queue
      ensures IsHeap(queue) && Unique(queue) && forall e :: e in queue ==> e in old(queue)
      ensures old(Contents(queue)) != {} && top == Earliest(old(Contents(queue))) && Contents(queue) == old(Contents(queue)) - {top}
    {
      RootIsNext(queue);
      DropFirstKeeps(queue);
      top := queue[0];
      queue := DropFirst(queue);
      SiftDown(0);
      assert forall e :: e in queue ==> e in Contents(queue);
    }

    // ----- Collecting -----

    /** The name of the first injector that denies the message, or the empty string. */
    method BlockedBy(from: Id, to: Id, delay: nat) returns (name: string)
      ensures name == Schedule.BlockedBy(config.injectors, now, from, to, delay)
    {
      var i := 0;
      while i < |config.injectors|
        invariant i <= |config.injectors|
        invariant Schedule.BlockedBy(config.injectors[i..], now, from, to, delay) == Schedule.BlockedBy(config.injectors, now, from, to, delay)
      {
        if !config.injectors[i].allow(now, from, to, delay) { return config.injectors[i].name; }
        assert config.injectors[i..][1..] == config.injectors[i + 1..];
        i := i + 1;
      }
      return "";
    }

    /** The two draws a message takes from the generator. */
    method DrawFate() returns (lost: bool, delay: nat)
      modifies this`drawn
      ensures FateOf(config, old(drawn)) == Fate(lost, delay, drawn)
    {
      delay := 0;
      if config.drop > 0 {
        var r := Drawn(config, drawn, 1000);
        drawn := drawn + [1000];
        if r < config.drop { return true, 0; }
      }
      if config.delay > 0 {
        delay := Drawn(config, drawn, config.delay + 1);
        drawn := drawn + [config.delay + 1];
      }
      return false, delay;
    }

    method Put(m: M)
      requires Valid()
      modifies this`drawn, this`injected, this`seqNo, this`queue
      ensures Valid() && View() == Schedule.Put(config, old(View()), m)
    {
      hide HeapFrom, Unique, FateOf, Schedule.BlockedBy, Schedule.Enter, Bump;
      var lost, delay := DrawFate();
      if lost { return; }
      var (from, to) := config.world.route(m);
      var blocked := BlockedBy(from, to, delay);
      if blocked != "" {
        injected := Bump(injected, blocked);
        return;
      }
      Enter(m, delay);
    }

    method Enter(m: M, delay: nat)
      requires Valid()
      modifies this`seqNo, this`queue
      ensures Valid() && View() == Schedule.Enter(config, old(View()), m, delay)
    {
      hide HeapFrom, Unique;
      var (from, to) := config.world.route(m);
      var ev := Event(now + delay, seqNo + 1, from, to, m);
      seqNo := seqNo + 1;
      Push(ev);
      assert forall e :: e in queue ==> e in Contents(queue);
    }

    method Collect()
      requires Valid()
      modifies this`cluster, this`drawn, this`injected, this`seqNo, this`queue
      ensures Valid() && View() == Schedule.Collect(config, old(View()))
    {
      var ids := config.world.nodes(cluster);
      var i := 0;
      assert ids[0..] == ids;
      while i < |ids|
        invariant i <= |ids| && Valid()
        invariant CollectFrom(config, View(), ids[i..]) == CollectFrom(config, old(View()), ids)
      {
        assert ids[i..][1..] == ids[i + 1..];
        var (drained, ms) := config.world.drain(cluster, ids[i]);
        cluster := drained;
        PutAll(ms);
        i := i + 1;
      }
    }

    method PutAll(ms: seq<M>)
      requires Valid()
      modifies this`drawn, this`injected, this`seqNo, this`queue
      ensures Valid() && View() == Schedule.PutAll(config, old(View()), ms)
    {
      var j := 0;
      assert ms[0..] == ms;
      while j < |ms|
        invariant j <= |ms| && Valid()
        invariant Schedule.PutAll(config, View(), ms[j..]) == Schedule.PutAll(config, old(View()), ms)
      {
        assert ms[j..][1..] == ms[j + 1..];
        Put(ms[j]);
        j := j + 1;
      }
    }

    // ----- Steps -----

    method TickAll()
      modifies this`cluster
      ensures cluster == Schedule.TickAll(config, old(cluster), config.world.nodes(old(cluster)))
    {
      var ids := config.world.nodes(cluster);
      var i := 0;
      assert ids[0..] == ids;
      while i < |ids|
        invariant i <= |ids|
        invariant Schedule.TickAll(config, cluster, ids[i..]) == Schedule.TickAll(config, old(cluster), ids)
      {
        assert ids[i..][1..] == ids[i + 1..];
        cluster := config.world.tick(cluster, ids[i]);
        i := i + 1;
      }
    }

    /** Delivers the root of the heap and collects what that produces. */
    method DeliverNext()
      requires Valid() && 0 < |queue| && queue[0].at <= now
      modifies this
      ensures Valid() && old(Due(View())) && View() == Schedule.Deliver(config, old(View()))
    {
      hide HeapFrom, Unique, Schedule.Collect, RecordOf;
      RootIsNext(queue);
      var ev := Pop();
      trace := trace + [RecordOf(config, now, ev)];
      cluster := config.world.deliver(cluster, ev.to, ev.msg);
      assert View() == Take(config, old(View()), ev);
      Collect();
    }

    method Begin()
      requires Valid()
      modifies this
      ensures Valid() && View() == Schedule.Begin(config, old(View()))
    {
      hide HeapFrom, Unique, Schedule.Collect, Schedule.TickAll;
      now := now + 1;
      TickAll();
      Collect();
    }

    /** Whether the root of the heap is due decides whether anything is. */
    lemma DueAtRoot()
      requires Valid()
      ensures Due(View()) <==> |queue| > 0 && queue[0].at <= now
    {
      if |queue| > 0 {
        RootIsNext(queue);
      } else {
        assert Contents(queue) == {};
      }
    }

    /** One unit of virtual time; `fuel` bounds how many deliveries may cascade in it. */
    method Step(fuel: nat) returns (settled: bool)
      requires Valid()
      modifies this
      ensures Valid() && View() == Schedule.Step(config, old(View()), fuel) && settled == !Due(View())
    {
      hide HeapFrom, Unique, Schedule.Deliver, Schedule.Begin;
      Begin();
      ghost var begun := View();
      var left := fuel;
      while left > 0 && |queue| > 0 && queue[0].at <= now
        invariant Valid() && Settle(config, View(), left) == Settle(config, begun, fuel)
        decreases left
      {
        DeliverNext();
        left := left - 1;
      }
      DueAtRoot();
      settled := |queue| == 0 || queue[0].at > now;
    }

    // ----- Calls from outside -----

    /** Keeps the events that do not touch `node`, in their places' order. */
    method Retain(node: Id) returns (dropped: nat)
      modifies this`queue
      ensures queue == Filter(old(queue), node) && dropped == old(|queue|) - |queue|
    {
      var kept: seq<Event<M>> := [];
      var i := 0;
      dropped := 0;
      while i < |queue|
        invariant i <= |queue| && kept == Filter(queue[..i], node) && dropped == i - |kept|
      {
        assert queue[..i + 1][..i] == queue[..i];
        if Touches(queue[i], node) { dropped := dropped + 1; } else { kept := kept + [queue[i]]; }
        i := i + 1;
      }
      assert queue[..i] == queue;
      queue := kept;
    }

    /** Discards every message from or to `node`, then restores the heap. */
    method Isolate(node: Id) returns (dropped: nat)
      requires Valid()
      modifies this`queue, this`isolated
      ensures Valid() && View() == Schedule.Isolate(old(View()), node) && dropped == |Cut(old(Contents(queue)), node)|
    {
      hide HeapFrom, Unique, Filter;
      FilterCuts(queue, node);
      FilterKeeps(queue, node);
      assert forall e :: e in Keep(Contents(queue), node) ==> e in queue;
      dropped := Retain(node);
      isolated := isolated + dropped;
      Heapify();
      assert forall e :: e in queue ==> e in Contents(queue);
    }

    /** Restores the heap after arbitrary removals, from the last parent up to the root. */
    method Heapify()
      requires Unique(queue)
      modifies this`queue
      ensures IsHeap(queue) && Unique(queue) && Contents(queue) == old(Contents(queue))
    {
      var i: nat := |queue| / 2;
      while i > 0
        invariant HeapFrom(queue, i) && Unique(queue) && Contents(queue) == old(Contents(queue))
      {
        i := i - 1;
        SiftDown(i);
      }
    }

    method Perform(a: Action<S>)
      requires Valid()
      modifies this
      ensures Valid() && View() == Schedule.Perform(config, old(View()), a)
    {
      hide HeapFrom, Unique, Schedule.Step, Schedule.Collect;
      match a {
        case Advance(fuel) => var settled := Step(fuel);
        case Drive(change) =>
          cluster := change(cluster);
          Collect();
        case Restart(node, rebuild) =>
          cluster := rebuild(cluster);
          var dropped := Isolate(node);
      }
    }

    method Run(script: seq<Action<S>>)
      requires Valid()
      modifies this
      ensures Valid() && View() == PerformAll(config, old(View()), script)
    {
      hide HeapFrom, Unique, Schedule.Perform;
      var i := 0;
      assert script[0..] == script;
      while i < |script|
        invariant i <= |script| && Valid()
        invariant PerformAll(config, View(), script[i..]) == PerformAll(config, old(View()), script)
      {
        assert script[i..][1..] == script[i + 1..];
        Perform(script[i]);
        i := i + 1;
      }
    }
  }
}
