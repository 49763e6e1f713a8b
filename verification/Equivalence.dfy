/**
 * The heap engine and the linear-scan simulator perform the same run, and what every run keeps.
 */
module Equivalence {
  import opened Quorums
  import opened Schedule
  import opened Heap
  import E = Engine
  import R = Simulator

  // ----- Two stores, one run -----

  /**
   * Drives both with the same script from equal states.  They end in equal clocks, clusters,
   * generator positions and sequence counters, with the same deliveries recorded in the same
   * order, and with the same bag of messages in flight.
   */
  method Lockstep<S(!new), M(!new)>(e: E.Engine<S, M>, r: R.Simulator<S, M>, script: seq<Action<S>>)
    requires e.Valid() && r.Valid() && e.config == r.config && e.View() == r.View()
    modifies e, r
    ensures e.Valid() && r.Valid() && e.View() == r.View()
    ensures multiset(e.queue) == multiset(r.Events())
  {
    e.Run(script);
    r.Run(script);
    SameBag(e.queue, r.Events());
  }

  // ----- Conservation -----

  /** Numbers are given out once, and every number given out is delivered, in flight or discarded. */
  ghost predicate Conserved<S, M(!new)>(x: Exec<S, M>) {
    && Distinct(x.queue) && (forall e :: e in x.queue ==> e.seqNo <= x.seqNo)
    && x.seqNo == |x.trace| + |x.queue| + x.isolated
  }

  lemma PutConserves<S, M(!new)>(p: Config<S, M>, x: Exec<S, M>, m: M)
    requires Conserved(x)
    ensures Conserved(Put(p, x, m))
  {
    hide FateOf, BlockedBy;
  }

  lemma {:induction false} PutAllConserves<S, M(!new)>(p: Config<S, M>, x: Exec<S, M>, ms: seq<M>)
    requires Conserved(x)
    ensures Conserved(PutAll(p, x, ms))
    decreases |ms|
  {
    hide Conserved, Put;
    if ms != [] {
      PutConserves(p, x, ms[0]);
      PutAllConserves(p, Put(p, x, ms[0]), ms[1..]);
    }
  }

  lemma {:induction false} CollectFromConserves<S, M(!new)>(p: Config<S, M>, x: Exec<S, M>, ids: seq<Id>)
    requires Conserved(x)
    ensures Conserved(CollectFrom(p, x, ids))
    decreases |ids|
  {
    hide PutAll;
    if ids != [] {
      var (cluster, ms) := p.world.drain(x.cluster, ids[0]);
      PutAllConserves(p, x.(cluster := cluster), ms);
      CollectFromConserves(p, PutAll(p, x.(cluster := cluster), ms), ids[1..]);
    }
  }

  lemma {:induction false} SettleConserves<S, M(!new)>(p: Config<S, M>, x: Exec<S, M>, fuel: nat)
    requires Conserved(x)
    ensures Conserved(Settle(p, x, fuel))
    decreases fuel
  {
    hide CollectFrom;
    if Due(x) && fuel > 0 {
      var y := Take(p, x, Earliest(x.queue));
      assert Conserved(y);
      CollectFromConserves(p, y, p.world.nodes(y.cluster));
      SettleConserves(p, Deliver(p, x), fuel - 1);
    }
  }

  lemma IsolateConserves<S, M(!new)>(x: Exec<S, M>, node: Id)
    requires Conserved(x)
    ensures Conserved(Isolate(x, node))
  {
    assert x.queue == Keep(x.queue, node) + Cut(x.queue, node);
  }

  lemma PerformConserves<S, M(!new)>(p: Config<S, M>, x: Exec<S, M>, a: Action<S>)
    requires Conserved(x)
    ensures Conserved(Perform(p, x, a))
  {
    hide CollectFrom, Settle;
    match a {
      case Advance(fuel) =>
        var y := x.(now := x.now + 1, cluster := TickAll(p, x.cluster, p.world.nodes(x.cluster)));
        CollectFromConserves(p, y, p.world.nodes(y.cluster));
        SettleConserves(p, Begin(p, x), fuel);
      case Drive(change) =>
        var y := x.(cluster := change(x.cluster));
        CollectFromConserves(p, y, p.world.nodes(y.cluster));
      case Restart(node, rebuild) => IsolateConserves(x.(cluster := rebuild(x.cluster)), node);
    }
  }

  /** Over any run, whatever injectors are registered, the sequence counter is the number of
      messages delivered, in flight and discarded by isolation together. */
  lemma {:induction false} Conservation<S, M(!new)>(p: Config<S, M>, x: Exec<S, M>, script: seq<Action<S>>)
    requires Conserved(x)
    ensures Conserved(PerformAll(p, x, script))
    decreases |script|
  {
    hide Conserved, Perform;
    if script != [] {
      PerformConserves(p, x, script[0]);
      Conservation(p, Perform(p, x, script[0]), script[1..]);
    }
  }

  // ----- Deadlines -----

  /** No message in flight is due later than the longest delay from now. */
  ghost predicate Bounded<S, M(!new)>(p: Config<S, M>, x: Exec<S, M>) {
    forall e :: e in x.queue ==> e.at <= x.now + p.delay
  }

  lemma FateBound<S, M>(p: Config<S, M>, drawn: seq<nat>)
    ensures FateOf(p, drawn).delay <= p.delay
  {
  }

  lemma PutBounded<S, M(!new)>(p: Config<S, M>, x: Exec<S, M>, m: M)
    requires Bounded(p, x)
    ensures var y := Put(p, x, m); Bounded(p, y) && y.now == x.now && y.trace == x.trace && x.queue <= y.queue
  {
    hide FateOf, BlockedBy;
    FateBound(p, x.drawn);
  }

  lemma {:induction false} PutAllBounded<S, M(!new)>(p: Config<S, M>, x: Exec<S, M>, ms: seq<M>)
    requires Bounded(p, x)
    ensures var y := PutAll(p, x, ms); Bounded(p, y) && y.now == x.now && y.trace == x.trace && x.queue <= y.queue
    decreases |ms|
  {
    hide Bounded, Put;
    if ms != [] {
      PutBounded(p, x, ms[0]);
      PutAllBounded(p, Put(p, x, ms[0]), ms[1..]);
    }
  }

  lemma {:induction false} CollectFromBounded<S, M(!new)>(p: Config<S, M>, x: Exec<S, M>, ids: seq<Id>)
    requires Bounded(p, x)
    ensures var y := CollectFrom(p, x, ids); Bounded(p, y) && y.now == x.now && y.trace == x.trace && x.queue <= y.queue
    decreases |ids|
  {
    hide PutAll;
    if ids != [] {
      var (cluster, ms) := p.world.drain(x.cluster, ids[0]);
      PutAllBounded(p, x.(cluster := cluster), ms);
      CollectFromBounded(p, PutAll(p, x.(cluster := cluster), ms), ids[1..]);
    }
  }

  /** The trace from `first` on has a delivery of `e`, at a time up to `end`. */
  ghost predicate Logged<M>(trace: seq<Record>, first: nat, e: Event<M>, end: nat) {
    exists i :: first <= i < |trace| && trace[i].seqNo == e.seqNo && trace[i].from == e.from && trace[i].to == e.to && trace[i].now <= end
  }

  /** Time and trace only grow, and `e` is still in flight or has been delivered since. */
  ghost predicate Follows<S, M(!new)>(x: Exec<S, M>, y: Exec<S, M>, e: Event<M>) {
    && x.now <= y.now && x.trace <= y.trace
    && (e in x.queue ==> e in y.queue || Logged(y.trace, |x.trace|, e, y.now))
  }

  lemma FollowsOn<S, M(!new)>(x: Exec<S, M>, y: Exec<S, M>, z: Exec<S, M>, e: Event<M>)
    requires Follows(x, y, e) && Follows(y, z, e)
    ensures Follows(x, z, e)
  {
    if e in x.queue && e !in z.queue && e !in y.queue {
      var i :| |x.trace| <= i < |y.trace| && y.trace[i].seqNo == e.seqNo && y.trace[i].from == e.from && y.trace[i].to == e.to && y.trace[i].now <= y.now;
      assert z.trace[i] == y.trace[i];
    }
  }

  lemma DeliverFollows<S, M(!new)>(p: Config<S, M>, x: Exec<S, M>, e: Event<M>)
    requires Bounded(p, x) && Due(x)
    ensures Follows(x, Deliver(p, x), e) && Bounded(p, Deliver(p, x)) && Deliver(p, x).now == x.now
  {
    hide CollectFrom;
    var f := Earliest(x.queue);
    var y := Take(p, x, f);
    CollectFromBounded(p, y, p.world.nodes(y.cluster));
    if e == f { assert y.trace[|x.trace|] == RecordOf(p, x.now, e); }
  }

  lemma {:induction false} SettleFollows<S, M(!new)>(p: Config<S, M>, x: Exec<S, M>, fuel: nat, e: Event<M>)
    requires Bounded(p, x)
    ensures var y := Settle(p, x, fuel); Follows(x, y, e) && Bounded(p, y) && y.now == x.now
    decreases fuel
  {
    hide Deliver, Bounded;
    if Due(x) && fuel > 0 {
      DeliverFollows(p, x, e);
      SettleFollows(p, Deliver(p, x), fuel - 1, e);
      FollowsOn(x, Deliver(p, x), Settle(p, x, fuel), e);
    }
  }

  lemma PerformFollows<S, M(!new)>(p: Config<S, M>, x: Exec<S, M>, a: Action<S>, e: Event<M>)
    requires Bounded(p, x) && (a.Restart? ==> !Touches(e, a.node))
    ensures Follows(x, Perform(p, x, a), e) && Bounded(p, Perform(p, x, a))
  {
    hide CollectFrom, Settle;
    match a {
      case Advance(fuel) =>
        var y := x.(now := x.now + 1, cluster := TickAll(p, x.cluster, p.world.nodes(x.cluster)));
        CollectFromBounded(p, y, p.world.nodes(y.cluster));
        SettleFollows(p, Begin(p, x), fuel, e);
        FollowsOn(x, Begin(p, x), Perform(p, x, a), e);
      case Drive(change) =>
        var y := x.(cluster := change(x.cluster));
        CollectFromBounded(p, y, p.world.nodes(y.cluster));
      case Restart(node, rebuild) =>
    }
  }

  lemma {:induction false} PerformAllFollows<S, M(!new)>(p: Config<S, M>, x: Exec<S, M>, script: seq<Action<S>>, e: Event<M>)
    requires Bounded(p, x) && forall a :: a in script && a.Restart? ==> !Touches(e, a.node)
    ensures Follows(x, PerformAll(p, x, script), e) && Bounded(p, PerformAll(p, x, script))
    decreases |script|
  {
    hide Bounded, Perform, Follows;
    if script == [] {
      FollowsSelf(x, e);
    } else {
      PerformFollows(p, x, script[0], e);
      PerformAllFollows(p, Perform(p, x, script[0]), script[1..], e);
      FollowsOn(x, Perform(p, x, script[0]), PerformAll(p, x, script), e);
    }
  }

  lemma FollowsSelf<S, M(!new)>(x: Exec<S, M>, e: Event<M>)
    ensures Follows(x, x, e)
  {
  }

  /** After a step that has settled, every message in flight is due later than now, but not
      later than the longest delay. */
  lemma SettledWindow<S, M(!new)>(p: Config<S, M>, x: Exec<S, M>, fuel: nat)
    requires Bounded(p, x) && !Due(Step(p, x, fuel))
    ensures var y := Step(p, x, fuel); forall e :: e in y.queue ==> y.now < e.at <= y.now + p.delay
  {
    hide Step, Follows;
    var y := Step(p, x, fuel);
    forall e | e in y.queue ensures y.now < e.at <= y.now + p.delay {
      PerformFollows(p, x, Advance(fuel), e);
      assert !Earlier(e, Earliest(y.queue));
    }
  }

  /**
   * A message in flight at time `s`, neither of whose ends is restarted, has been delivered
   * once a step at time `s + delay` or later has settled, and at no later time than that.
   */
  lemma Deadline<S, M(!new)>(p: Config<S, M>, x: Exec<S, M>, script: seq<Action<S>>, e: Event<M>)
    requires Bounded(p, x) && e in x.queue && forall a :: a in script && a.Restart? ==> !Touches(e, a.node)
    requires var y := PerformAll(p, x, script); x.now + p.delay <= y.now && !Due(y)
    ensures var y := PerformAll(p, x, script); e !in y.queue && Logged(y.trace, |x.trace|, e, y.now)
  {
    hide PerformAll, Logged;
    var y := PerformAll(p, x, script);
    PerformAllFollows(p, x, script, e);
    if e in y.queue { assert false; }
  }

  // ----- Injectors -----

  /** A message that was not lost, and the time at which it is due. */
  datatype Slot<M> = Slot(at: nat, from: Id, to: Id, msg: M)

  /** The slots that the draws give a batch of messages; no injector is asked. */
  function Slots<S, M>(p: Config<S, M>, now: nat, drawn: seq<nat>, ms: seq<M>): seq<Slot<M>>
    decreases |ms|
  {
    if ms == [] then []
    else
      var f, (from, to) := FateOf(p, drawn), p.world.route(ms[0]);
      (if f.lost then [] else [Slot(now + f.delay, from, to, ms[0])]) + Slots(p, now, f.drawn, ms[1..])
  }

  function DrawnFor<S, M>(p: Config<S, M>, drawn: seq<nat>, count: nat): seq<nat>
    decreases count
  {
    if count == 0 then drawn else DrawnFor(p, FateOf(p, drawn).drawn, count - 1)
  }

  predicate Passes<M>(injectors: seq<Injector>, now: nat, s: Slot<M>)
    requires now <= s.at
  {
    BlockedBy(injectors, now, s.from, s.to, s.at - now) == ""
  }

  /** The slots that no injector blocks, in order. */
  function Unblocked<M>(injectors: seq<Injector>, now: nat, slots: seq<Slot<M>>): seq<Slot<M>>
    requires forall i :: 0 <= i < |slots| ==> now <= slots[i].at
    decreases |slots|
  {
    if slots == [] then []
    else (if Passes(injectors, now, slots[0]) then [slots[0]] else []) + Unblocked(injectors, now, slots[1..])
  }

  /** The slots as events, numbered on from `seqNo`. */
  ghost function Numbered<M(!new)>(slots: seq<Slot<M>>, seqNo: nat): set<Event<M>>
    decreases |slots|
  {
    if slots == [] then {}
    else {Event(slots[0].at, seqNo + 1, slots[0].from, slots[0].to, slots[0].msg)} + Numbered(slots[1..], seqNo + 1)
  }

  lemma {:induction false} SlotsAreLater<S, M>(p: Config<S, M>, now: nat, drawn: seq<nat>, ms: seq<M>)
    ensures forall i :: 0 <= i < |Slots(p, now, drawn, ms)| ==> now <= Slots(p, now, drawn, ms)[i].at
    decreases |ms|
  {
    hide FateOf;
    if ms != [] { SlotsAreLater(p, now, FateOf(p, drawn).drawn, ms[1..]); }
  }

  /** What collecting a batch adds to the schedule: the slots its draws give, without the blocked
      ones, numbered in order. */
  lemma {:induction false} CollectsExactly<S, M(!new)>(p: Config<S, M>, x: Exec<S, M>, ms: seq<M>)
    ensures var slots, r := Slots(p, x.now, x.drawn, ms), PutAll(p, x, ms);
      && (forall i :: 0 <= i < |slots| ==> x.now <= slots[i].at)
      && var kept := Unblocked(p.injectors, x.now, slots);
      && r.now == x.now && r.drawn == DrawnFor(p, x.drawn, |ms|)
      && r.seqNo == x.seqNo + |kept| && r.queue == x.queue + Numbered(kept, x.seqNo)
    decreases |ms|
  {
    hide FateOf, BlockedBy, Slots, Unblocked, Numbered, Passes;
    SlotsAreLater(p, x.now, x.drawn, ms);
    if ms == [] {
      NoSlots(p, x.now, x.drawn, x.seqNo);
    } else {
      CollectsExactly(p, Put(p, x, ms[0]), ms[1..]);
      var f := FateOf(p, x.drawn);
      var (from, to) := p.world.route(ms[0]);
      var rest := Slots(p, x.now, f.drawn, ms[1..]);
      SlotsAreLater(p, x.now, f.drawn, ms[1..]);
      FirstSlot(p, x.now, x.drawn, ms);
      if !f.lost { FirstUnblocked(p.injectors, x.now, Slot(x.now + f.delay, from, to, ms[0]), rest, x.seqNo); }
    }
  }

  lemma NoSlots<S, M(!new)>(p: Config<S, M>, now: nat, drawn: seq<nat>, seqNo: nat)
    ensures Slots(p, now, drawn, []) == [] && Unblocked<M>(p.injectors, now, []) == [] && Numbered<M>([], seqNo) == {}
  {
  }

  lemma FirstSlot<S, M>(p: Config<S, M>, now: nat, drawn: seq<nat>, ms: seq<M>)
    requires ms != []
    ensures var f, (from, to) := FateOf(p, drawn), p.world.route(ms[0]);
      var rest := Slots(p, now, f.drawn, ms[1..]);
      Slots(p, now, drawn, ms) == if f.lost then rest else [Slot(now + f.delay, from, to, ms[0])] + rest
  {
    hide FateOf;
  }

  lemma FirstUnblocked<M(!new)>(injectors: seq<Injector>, now: nat, s: Slot<M>, rest: seq<Slot<M>>, seqNo: nat)
    requires now <= s.at && forall i :: 0 <= i < |rest| ==> now <= rest[i].at
    ensures var kept, kept' := Unblocked(injectors, now, [s] + rest), Unblocked(injectors, now, rest);
      if BlockedBy(injectors, now, s.from, s.to, s.at - now) != "" then kept == kept'
      else |kept| == 1 + |kept'| && Numbered(kept, seqNo) == {Event(s.at, seqNo + 1, s.from, s.to, s.msg)} + Numbered(kept', seqNo + 1)
  {
    hide BlockedBy;
    assert ([s] + rest)[1..] == rest;
    var kept' := Unblocked(injectors, now, rest);
    assert ([s] + kept')[1..] == kept';
  }

  lemma {:induction false} NothingBlocked<M>(now: nat, slots: seq<Slot<M>>)
    requires forall i :: 0 <= i < |slots| ==> now <= slots[i].at
    ensures Unblocked([], now, slots) == slots
    decreases |slots|
  {
    if slots != [] { NothingBlocked(now, slots[1..]); }
  }

  lemma {:induction false} SameDraws<S, M>(p: Config<S, M>, q: Config<S, M>, now: nat, drawn: seq<nat>, ms: seq<M>)
    requires q == p.(injectors := q.injectors)
    ensures Slots(p, now, drawn, ms) == Slots(q, now, drawn, ms) && DrawnFor(p, drawn, |ms|) == DrawnFor(q, drawn, |ms|)
    decreases |ms|
  {
    if ms != [] { SameDraws(p, q, now, FateOf(p, drawn).drawn, ms[1..]); }
  }

  /** Injectors only remove messages: a batch collected with and without them takes the same
      draws, and what is scheduled with them is what is scheduled without them, due at the same
      times and in the same order, less the messages that an injector blocks. */
  lemma InjectorsDoNotShift<S, M(!new)>(p: Config<S, M>, x: Exec<S, M>, ms: seq<M>)
    ensures var all, r, r' := Slots(p, x.now, x.drawn, ms), PutAll(p, x, ms), PutAll(p.(injectors := []), x, ms);
      && (forall i :: 0 <= i < |all| ==> x.now <= all[i].at)
      && r.drawn == r'.drawn && r.now == r'.now
      && r'.queue == x.queue + Numbered(all, x.seqNo)
      && r.queue == x.queue + Numbered(Unblocked(p.injectors, x.now, all), x.seqNo)
  {
    hide Slots, PutAll, Numbered, Unblocked, DrawnFor;
    var q := p.(injectors := []);
    CollectsExactly(p, x, ms);
    CollectsExactly(q, x, ms);
    SameDraws(p, q, x.now, x.drawn, ms);
    NothingBlocked(x.now, Slots(p, x.now, x.drawn, ms));
  }
}
