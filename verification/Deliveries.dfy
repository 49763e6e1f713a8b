/**
 * What a run does to the cluster under test, call by call.
 *
 * The cluster is watched: a copy of it writes down every call that is made on it.  Watching
 * changes nothing, and the calls written down are those that the trace accounts for.
 */
module Deliveries {
  import opened Quorums
  import opened Schedule

  // ----- A watched cluster -----

  datatype Call<M> = Ticked(id: Id) | Drained(id: Id, sent: seq<M>) | Delivered(id: Id, msg: M) | Changed

  datatype Watch<S, M> = Watch(state: S, calls: seq<Call<M>>)

  function Watched<S, M>(w: World<S, M>): World<Watch<S, M>, M> {
    World(
      (s: Watch<S, M>) => w.nodes(s.state),
      (s: Watch<S, M>, id: Id) => Watch(w.tick(s.state, id), s.calls + [Ticked(id)]),
      (s: Watch<S, M>, id: Id, m: M) => Watch(w.deliver(s.state, id, m), s.calls + [Delivered(id, m)]),
      (s: Watch<S, M>, id: Id) => (Watch(w.drain(s.state, id).0, s.calls + [Drained(id, w.drain(s.state, id).1)]), w.drain(s.state, id).1),
      w.route, w.digest)
  }

  function WatchedConfig<S, M>(p: Config<S, M>): Config<Watch<S, M>, M> {
    Config(Watched(p.world), p.draw, p.drop, p.delay, p.injectors)
  }

  function WatchedChange<S, M>(change: S -> S): Watch<S, M> -> Watch<S, M> {
    (s: Watch<S, M>) => Watch(change(s.state), s.calls + [Changed])
  }

  function WatchedAction<S, M>(a: Action<S>): Action<Watch<S, M>> {
    match a
    case Advance(fuel) => Advance(fuel)
    case Drive(change) => Drive(WatchedChange(change))
    case Restart(node, rebuild) => Restart(node, WatchedChange(rebuild))
  }

  function WatchedScript<S, M>(script: seq<Action<S>>): (r: seq<Action<Watch<S, M>>>)
    ensures |r| == |script|
  {
    if script == [] then [] else [WatchedAction(script[0])] + WatchedScript(script[1..])
  }

  ghost function Plain<S, M(!new)>(x: Exec<Watch<S, M>, M>): Exec<S, M> {
    Exec(x.now, x.cluster.state, x.drawn, x.seqNo, x.queue, x.trace, x.injected, x.isolated)
  }

  // ----- Watching changes nothing -----

  lemma PutPlain<S, M(!new)>(p: Config<S, M>, x: Exec<Watch<S, M>, M>, m: M)
    ensures Plain(Put(WatchedConfig(p), x, m)) == Put(p, Plain(x), m)
    ensures Put(WatchedConfig(p), x, m).cluster == x.cluster && Put(WatchedConfig(p), x, m).trace == x.trace
  {
    hide BlockedBy;
    assert FateOf(WatchedConfig(p), x.drawn) == FateOf(p, x.drawn);
  }

  lemma {:induction false} PutAllPlain<S, M(!new)>(p: Config<S, M>, x: Exec<Watch<S, M>, M>, ms: seq<M>)
    ensures Plain(PutAll(WatchedConfig(p), x, ms)) == PutAll(p, Plain(x), ms)
    ensures PutAll(WatchedConfig(p), x, ms).cluster == x.cluster && PutAll(WatchedConfig(p), x, ms).trace == x.trace
    decreases |ms|
  {
    hide Put, Plain;
    if ms != [] {
      PutPlain(p, x, ms[0]);
      PutAllPlain(p, Put(WatchedConfig(p), x, ms[0]), ms[1..]);
    }
  }

  lemma {:induction false} CollectPlain<S, M(!new)>(p: Config<S, M>, x: Exec<Watch<S, M>, M>, ids: seq<Id>)
    ensures Plain(CollectFrom(WatchedConfig(p), x, ids)) == CollectFrom(p, Plain(x), ids)
    decreases |ids|
  {
    hide PutAll;
    if ids != [] {
      var (cluster, ms) := WatchedConfig(p).world.drain(x.cluster, ids[0]);
      PutAllPlain(p, x.(cluster := cluster), ms);
      CollectPlain(p, PutAll(WatchedConfig(p), x.(cluster := cluster), ms), ids[1..]);
    }
  }

  lemma {:induction false} TickPlain<S, M(!new)>(p: Config<S, M>, s: Watch<S, M>, ids: seq<Id>)
    ensures TickAll(WatchedConfig(p), s, ids).state == TickAll(p, s.state, ids)
    decreases |ids|
  {
    if ids != [] { TickPlain(p, WatchedConfig(p).world.tick(s, ids[0]), ids[1..]); }
  }

  lemma {:induction false} SettlePlain<S, M(!new)>(p: Config<S, M>, x: Exec<Watch<S, M>, M>, fuel: nat)
    ensures Plain(Settle(WatchedConfig(p), x, fuel)) == Settle(p, Plain(x), fuel)
    decreases fuel
  {
    hide CollectFrom;
    if Due(x) && fuel > 0 {
      var y := Take(WatchedConfig(p), x, Earliest(x.queue));
      CollectPlain(p, y, p.world.nodes(y.cluster.state));
      SettlePlain(p, Deliver(WatchedConfig(p), x), fuel - 1);
    }
  }

  lemma PerformPlain<S, M(!new)>(p: Config<S, M>, x: Exec<Watch<S, M>, M>, a: Action<S>)
    ensures Plain(Perform(WatchedConfig(p), x, WatchedAction(a))) == Perform(p, Plain(x), a)
  {
    hide CollectFrom, Settle;
    match a {
      case Advance(fuel) =>
        var ids := p.world.nodes(x.cluster.state);
        TickPlain(p, x.cluster, ids);
        var y := x.(now := x.now + 1, cluster := TickAll(WatchedConfig(p), x.cluster, ids));
        CollectPlain(p, y, p.world.nodes(y.cluster.state));
        SettlePlain(p, Begin(WatchedConfig(p), x), fuel);
      case Drive(change) =>
        var y := x.(cluster := WatchedChange<S, M>(change)(x.cluster));
        CollectPlain(p, y, p.world.nodes(y.cluster.state));
      case Restart(node, rebuild) =>
    }
  }

  /** A watched run is the run. */
  lemma {:induction false} WatchingIsHarmless<S, M(!new)>(p: Config<S, M>, x: Exec<Watch<S, M>, M>, script: seq<Action<S>>)
    ensures Plain(PerformAll(WatchedConfig(p), x, WatchedScript(script))) == PerformAll(p, Plain(x), script)
    decreases |script|
  {
    hide Perform, Plain;
    if script != [] {
      PerformPlain(p, x, script[0]);
      WatchingIsHarmless(p, Perform(WatchedConfig(p), x, WatchedAction(script[0])), script[1..]);
      var ws: seq<Action<Watch<S, M>>> := WatchedScript(script);
      assert ws[0] == WatchedAction(script[0]) && ws[1..] == WatchedScript(script[1..]);
    }
  }

  // ----- What every run keeps -----

  /** The record says who sent `m`, who got it, and what it was. */
  predicate Tells<S, M>(w: World<S, M>, r: Record, m: M) {
    (r.from, r.to) == w.route(m) && (r.kind, r.value) == w.digest(m)
  }

  /** `sent(s, m)`: somebody has sent `m`.  A drain makes it so, and nothing undoes it. */
  ghost predicate Remembers<S(!new), M(!new)>(w: World<S, M>, sent: (S, M) -> bool) {
    && (forall s, id, m :: sent(s, m) ==> sent(w.tick(s, id), m))
    && (forall s, id, m :: sent(s, m) || m in w.drain(s, id).1 ==> sent(w.drain(s, id).0, m))
    && (forall s, id, m, k :: sent(s, m) ==> sent(w.deliver(s, id, k), m))
  }

  /** `good(s, t)` is kept by a tick, by a drain, and by handing a sent message to the node it is for. */
  ghost predicate Keeps<S(!new), M(!new)>(w: World<S, M>, good: (S, seq<Record>) -> bool, sent: (S, M) -> bool) {
    && (forall s, t, id :: good(s, t) ==> good(w.tick(s, id), t))
    && (forall s, t, id :: good(s, t) ==> good(w.drain(s, id).0, t))
    && (forall s, t, m, r :: good(s, t) && sent(s, m) && Tells(w, r, m) ==> good(w.deliver(s, w.route(m).1, m), t + [r]))
  }

  function Effect<S>(a: Action<S>): S -> S
    requires !a.Advance?
  {
    if a.Drive? then a.change else a.rebuild
  }

  ghost predicate Allowed<S(!new), M(!new)>(a: Action<S>, good: (S, seq<Record>) -> bool, sent: (S, M) -> bool) {
    && (!a.Advance? ==> forall s, t :: good(s, t) ==> good(Effect(a)(s), t))
    && (!a.Advance? ==> forall s, m :: sent(s, m) ==> sent(Effect(a)(s), m))
  }

  ghost predicate Sound<S, M(!new)>(p: Config<S, M>, x: Exec<S, M>, good: (S, seq<Record>) -> bool, sent: (S, M) -> bool) {
    && good(x.cluster, x.trace)
    && (forall e :: e in x.queue ==> (e.from, e.to) == p.world.route(e.msg) && sent(x.cluster, e.msg))
  }

  lemma PutSound<S, M(!new)>(p: Config<S, M>, x: Exec<S, M>, m: M, good: (S, seq<Record>) -> bool, sent: (S, M) -> bool)
    requires Sound(p, x, good, sent) && sent(x.cluster, m)
    ensures Sound(p, Put(p, x, m), good, sent) && Put(p, x, m).cluster == x.cluster
  {
    hide BlockedBy, FateOf, Bump;
  }

  lemma {:induction false} PutAllSound<S, M(!new)>(p: Config<S, M>, x: Exec<S, M>, ms: seq<M>, good: (S, seq<Record>) -> bool, sent: (S, M) -> bool)
    requires Sound(p, x, good, sent) && (forall m :: m in ms ==> sent(x.cluster, m))
    ensures Sound(p, PutAll(p, x, ms), good, sent)
    decreases |ms|
  {
    hide Put, Sound;
    if ms != [] {
      PutSound(p, x, ms[0], good, sent);
      PutAllSound(p, Put(p, x, ms[0]), ms[1..], good, sent);
    }
  }

  lemma {:induction false} CollectSound<S(!new), M(!new)>(p: Config<S, M>, x: Exec<S, M>, ids: seq<Id>, good: (S, seq<Record>) -> bool, sent: (S, M) -> bool)
    requires Keeps(p.world, good, sent) && Remembers(p.world, sent) && Sound(p, x, good, sent)
    ensures Sound(p, CollectFrom(p, x, ids), good, sent)
    decreases |ids|
  {
    hide PutAll;
    if ids != [] {
      var (cluster, ms) := p.world.drain(x.cluster, ids[0]);
      var y := x.(cluster := cluster);
      PutAllSound(p, y, ms, good, sent);
      CollectSound(p, PutAll(p, y, ms), ids[1..], good, sent);
    }
  }

  lemma {:induction false} TickSound<S(!new), M(!new)>(p: Config<S, M>, x: Exec<S, M>, ids: seq<Id>, good: (S, seq<Record>) -> bool, sent: (S, M) -> bool)
    requires Keeps(p.world, good, sent) && Remembers(p.world, sent) && Sound(p, x, good, sent)
    ensures Sound(p, x.(cluster := TickAll(p, x.cluster, ids)), good, sent)
    decreases |ids|
  {
    if ids != [] { TickSound(p, x.(cluster := p.world.tick(x.cluster, ids[0])), ids[1..], good, sent); }
  }

  lemma TakeSound<S(!new), M(!new)>(p: Config<S, M>, x: Exec<S, M>, e: Event<M>, good: (S, seq<Record>) -> bool, sent: (S, M) -> bool)
    requires Keeps(p.world, good, sent) && Remembers(p.world, sent) && Sound(p, x, good, sent) && e in x.queue
    ensures Sound(p, Take(p, x, e), good, sent)
  {
    assert Tells(p.world, RecordOf(p, x.now, e), e.msg);
  }

  lemma {:induction false} SettleSound<S(!new), M(!new)>(p: Config<S, M>, x: Exec<S, M>, fuel: nat, good: (S, seq<Record>) -> bool, sent: (S, M) -> bool)
    requires Keeps(p.world, good, sent) && Remembers(p.world, sent) && Sound(p, x, good, sent)
    ensures Sound(p, Settle(p, x, fuel), good, sent)
    decreases fuel
  {
    hide Sound, Keeps, Remembers, Take, CollectFrom;
    if Due(x) && fuel > 0 {
      var y := Take(p, x, Earliest(x.queue));
      TakeSound(p, x, Earliest(x.queue), good, sent);
      CollectSound(p, y, p.world.nodes(y.cluster), good, sent);
      SettleSound(p, Deliver(p, x), fuel - 1, good, sent);
    }
  }

  lemma PerformSound<S(!new), M(!new)>(p: Config<S, M>, x: Exec<S, M>, a: Action<S>, good: (S, seq<Record>) -> bool, sent: (S, M) -> bool)
    requires Keeps(p.world, good, sent) && Remembers(p.world, sent) && Sound(p, x, good, sent) && Allowed(a, good, sent)
    ensures Sound(p, Perform(p, x, a), good, sent)
  {
    hide Keeps, Remembers, CollectFrom, Settle, TickAll;
    match a {
      case Advance(fuel) =>
        var y := x.(now := x.now + 1);
        TickSound(p, y, p.world.nodes(x.cluster), good, sent);
        var z := y.(cluster := TickAll(p, x.cluster, p.world.nodes(x.cluster)));
        CollectSound(p, z, p.world.nodes(z.cluster), good, sent);
        SettleSound(p, Begin(p, x), fuel, good, sent);
      case Drive(change) =>
        var y := x.(cluster := change(x.cluster));
        assert change == Effect(a);
        CollectSound(p, y, p.world.nodes(y.cluster), good, sent);
      case Restart(node, rebuild) =>
        assert rebuild == Effect(a);
    }
  }

  lemma {:induction false} RunSound<S(!new), M(!new)>(p: Config<S, M>, x: Exec<S, M>, script: seq<Action<S>>, good: (S, seq<Record>) -> bool, sent: (S, M) -> bool)
    requires Keeps(p.world, good, sent) && Remembers(p.world, sent) && Sound(p, x, good, sent)
    requires forall a :: a in script ==> Allowed(a, good, sent)
    ensures Sound(p, PerformAll(p, x, script), good, sent)
    decreases |script|
  {
    hide Perform, Sound, Keeps, Remembers, Allowed;
    if script != [] {
      PerformSound(p, x, script[0], good, sent);
      RunSound(p, Perform(p, x, script[0]), script[1..], good, sent);
    }
  }

  /** What ticks, drains, the script's own changes and the delivery of each message to the node it
      is addressed to all keep, every run keeps. */
  lemma RunsKeep<S(!new), M(!new)>(p: Config<S, M>, x: Exec<S, M>, script: seq<Action<S>>, good: S -> bool)
    requires good(x.cluster) && forall e :: e in x.queue ==> (e.from, e.to) == p.world.route(e.msg)
    requires forall s, id :: good(s) ==> good(p.world.tick(s, id))
    requires forall s, id :: good(s) ==> good(p.world.drain(s, id).0)
    requires forall s, m :: good(s) ==> good(p.world.deliver(s, p.world.route(m).1, m))
    requires forall a: Action<S>, s :: a in script && !a.Advance? && good(s) ==> good(Effect(a)(s))
    ensures good(PerformAll(p, x, script).cluster)
  {
    var always: (S, M) -> bool := (s, m) => true;
    var still: (S, seq<Record>) -> bool := (s, t) => good(s);
    RunSound(p, x, script, still, always);
  }

  // ----- The deliveries of a run are those of its trace -----

  /** The deliveries among `calls`, in order. */
  function Handed<M>(calls: seq<Call<M>>): seq<(Id, M)> {
    if calls == [] then []
    else
      var c := calls[|calls| - 1];
      Handed(calls[..|calls| - 1]) + if c.Delivered? then [(c.id, c.msg)] else []
  }

  /** The messages that the first `n` calls drained hold `m`. */
  ghost predicate SentBy<M(!new)>(calls: seq<Call<M>>, n: nat, m: M) {
    exists j :: 0 <= j < n <= |calls| && calls[j].Drained? && m in calls[j].sent
  }

  /** Each record of the trace is one delivery, to the node the message is addressed to, of a
      message that some node had sent before. */
  ghost predicate Accounts<S, M(!new)>(w: World<S, M>, calls: seq<Call<M>>, trace: seq<Record>) {
    && |Handed(calls)| == |trace|
    && (forall j :: 0 <= j < |trace| ==> Tells(w, trace[j], Handed(calls)[j].1) && Handed(calls)[j].0 == trace[j].to)
    && (forall i :: 0 <= i < |calls| && calls[i].Delivered? ==> SentBy(calls, i, calls[i].msg))
  }

  lemma Later<S, M(!new)>(w: World<S, M>, calls: seq<Call<M>>, c: Call<M>, t: seq<Record>)
    requires Accounts(w, calls, t) && !c.Delivered?
    ensures Accounts(w, calls + [c], t)
  {
    SentStays(calls, c);
    assert (calls + [c])[..|calls|] == calls;
  }

  lemma SentStays<M(!new)>(calls: seq<Call<M>>, c: Call<M>)
    ensures forall n: nat, m :: n <= |calls| && SentBy(calls, n, m) ==> SentBy(calls + [c], n, m) && SentBy(calls + [c], |calls| + 1, m)
    ensures c.Drained? ==> forall m :: m in c.sent ==> SentBy(calls + [c], |calls| + 1, m)
  {
    var more := calls + [c];
    forall n: nat, m | n <= |calls| && SentBy(calls, n, m) ensures SentBy(more, n, m) && SentBy(more, |calls| + 1, m) {
      var j :| 0 <= j < n && calls[j].Drained? && m in calls[j].sent;
      assert more[j] == calls[j];
    }
    assert more[|calls|] == c;
  }

  lemma LaterHanded<S, M(!new)>(w: World<S, M>, calls: seq<Call<M>>, m: M, t: seq<Record>, r: Record)
    requires Accounts(w, calls, t) && SentBy(calls, |calls|, m) && Tells(w, r, m)
    ensures Accounts(w, calls + [Delivered(w.route(m).1, m)], t + [r])
  {
    var c := Delivered(w.route(m).1, m);
    SentStays(calls, c);
    assert (calls + [c])[..|calls|] == calls;
  }

  /** What the watched cluster must keep, and what it has been sent. */
  ghost function Accounted<S(!new), M(!new)>(w: World<S, M>): (Watch<S, M>, seq<Record>) -> bool {
    (s: Watch<S, M>, t: seq<Record>) => Accounts(w, s.calls, t)
  }

  ghost function WasSent<S(!new), M(!new)>(): (Watch<S, M>, M) -> bool {
    (s: Watch<S, M>, m: M) => SentBy(s.calls, |s.calls|, m)
  }

  lemma WatchRemembers<S(!new), M(!new)>(w: World<S, M>)
    ensures Remembers(Watched(w), WasSent<S, M>())
  {
    var v, sent := Watched(w), WasSent<S, M>();
    forall s, id, m | sent(s, m) ensures sent(v.tick(s, id), m) {
      SentStays(s.calls, Ticked(id));
    }
    forall s, id, m | sent(s, m) || m in v.drain(s, id).1 ensures sent(v.drain(s, id).0, m) {
      SentStays(s.calls, Drained(id, v.drain(s, id).1));
    }
    forall s, id, m, k | sent(s, m) ensures sent(v.deliver(s, id, k), m) {
      SentStays(s.calls, Delivered(id, k));
    }
  }

  lemma WatchKeeps<S(!new), M(!new)>(w: World<S, M>)
    ensures Keeps(Watched(w), Accounted<S, M>(w), WasSent<S, M>())
  {
    var v := Watched(w);
    var good, sent := Accounted<S, M>(w), WasSent<S, M>();
    forall s, t, c: Call<M> | good(s, t) && !c.Delivered? ensures Accounts(w, s.calls + [c], t) {
      Later(w, s.calls, c, t);
    }
    forall s, t, m, r | good(s, t) && sent(s, m) && Tells(v, r, m) ensures good(v.deliver(s, v.route(m).1, m), t + [r]) {
      LaterHanded(w, s.calls, m, t, r);
    }
  }

  lemma WatchAllows<S(!new), M(!new)>(w: World<S, M>, a: Action<S>)
    ensures Allowed(WatchedAction<S, M>(a), Accounted<S, M>(w), WasSent<S, M>())
  {
    var good, sent := Accounted<S, M>(w), WasSent<S, M>();
    forall s, t | good(s, t) ensures Accounts(w, s.calls + [Changed], t) {
      Later(w, s.calls, Changed, t);
    }
    forall s: Watch<S, M>, m | sent(s, m) ensures SentBy(s.calls + [Changed], |s.calls| + 1, m) {
      SentStays(s.calls, Changed);
    }
  }

  /** Over every run from a fresh start: the deliveries made are those of the trace, in its order,
      each to the node its message is addressed to and of a message sent before. */
  lemma DeliveriesAreTraced<S(!new), M(!new)>(p: Config<S, M>, x: Exec<Watch<S, M>, M>, script: seq<Action<S>>)
    requires x.queue == {} && x.trace == [] && x.cluster.calls == []
    ensures var y := PerformAll(WatchedConfig(p), x, WatchedScript(script)); Accounts(p.world, y.cluster.calls, y.trace)
  {
    hide PerformAll, Remembers, Keeps, Allowed;
    WatchRemembers(p.world);
    WatchKeeps(p.world);
    var ws: seq<Action<Watch<S, M>>> := WatchedScript(script);
    ScriptAllowed<S, M>(p.world, script);
    RunSound(WatchedConfig(p), x, ws, Accounted<S, M>(p.world), WasSent<S, M>());
  }

  lemma {:induction false} ScriptAllowed<S(!new), M(!new)>(w: World<S, M>, script: seq<Action<S>>)
    ensures var ws: seq<Action<Watch<S, M>>> := WatchedScript(script); forall a :: a in ws ==> Allowed(a, Accounted<S, M>(w), WasSent<S, M>())
    decreases |script|
  {
    hide Allowed;
    if script != [] {
      WatchAllows(w, script[0]);
      ScriptAllowed<S, M>(w, script[1..]);
    }
  }

  // ----- The order of every call -----

  datatype Mark = Tick(id: Id) | Drain(id: Id) | Hand(id: Id) | Change

  function MarkOf<M>(c: Call<M>): Mark {
    match c
    case Ticked(id) => Tick(id)
    case Drained(id, _) => Drain(id)
    case Delivered(id, _) => Hand(id)
    case Changed => Change
  }

  function Marks<M>(calls: seq<Call<M>>): seq<Mark> {
    seq(|calls|, i requires 0 <= i < |calls| => MarkOf(calls[i]))
  }

  function Ticks(ids: seq<Id>): seq<Mark> {
    seq(|ids|, i requires 0 <= i < |ids| => Tick(ids[i]))
  }

  function Drains(ids: seq<Id>): seq<Mark> {
    seq(|ids|, i requires 0 <= i < |ids| => Drain(ids[i]))
  }

  /** Each delivery, followed by a drain of every node. */
  function Rounds(ids: seq<Id>, trace: seq<Record>): seq<Mark> {
    if trace == [] then [] else [Hand(trace[0].to)] + Drains(ids) + Rounds(ids, trace[1..])
  }

  lemma {:induction false} CollectMarks<S, M(!new)>(p: Config<S, M>, x: Exec<Watch<S, M>, M>, ids: seq<Id>)
    ensures var y := CollectFrom(WatchedConfig(p), x, ids); Marks(y.cluster.calls) == Marks(x.cluster.calls) + Drains(ids) && y.trace == x.trace
    decreases |ids|
  {
    hide PutAll;
    if ids != [] {
      var (cluster, ms) := WatchedConfig(p).world.drain(x.cluster, ids[0]);
      var y := PutAll(WatchedConfig(p), x.(cluster := cluster), ms);
      PutAllPlain(p, x.(cluster := cluster), ms);
      CollectMarks(p, y, ids[1..]);
      assert Marks(cluster.calls) == Marks(x.cluster.calls) + [Drain(ids[0])];
      assert [Drain(ids[0])] + Drains(ids[1..]) == Drains(ids);
    }
  }

  lemma {:induction false} TickMarks<S, M(!new)>(p: Config<S, M>, s: Watch<S, M>, ids: seq<Id>)
    ensures Marks(TickAll(WatchedConfig(p), s, ids).calls) == Marks(s.calls) + Ticks(ids)
    decreases |ids|
  {
    if ids != [] {
      var t := WatchedConfig(p).world.tick(s, ids[0]);
      TickMarks(p, t, ids[1..]);
      assert Marks(t.calls) == Marks(s.calls) + [Tick(ids[0])];
      assert [Tick(ids[0])] + Ticks(ids[1..]) == Ticks(ids);
    }
  }

  /** The cluster has the same nodes throughout. */
  ghost predicate Steady<S(!new), M>(w: World<S, M>, ids: seq<Id>) {
    forall s :: w.nodes(s) == ids
  }

  lemma {:induction false} SettleMarks<S(!new), M(!new)>(p: Config<S, M>, x: Exec<Watch<S, M>, M>, fuel: nat, ids: seq<Id>)
    requires Steady(p.world, ids)
    ensures var y := Settle(WatchedConfig(p), x, fuel);
      x.trace <= y.trace && Marks(y.cluster.calls) == Marks(x.cluster.calls) + Rounds(ids, y.trace[|x.trace|..])
    decreases fuel
  {
    hide CollectFrom, Drains;
    if Due(x) && fuel > 0 {
      var e := Earliest(x.queue);
      var t := Take(WatchedConfig(p), x, e);
      var d := Deliver(WatchedConfig(p), x);
      CollectMarks(p, t, ids);
      SettleMarks(p, d, fuel - 1, ids);
      assert Marks(t.cluster.calls) == Marks(x.cluster.calls) + [Hand(e.to)];
      var y := Settle(WatchedConfig(p), x, fuel);
      var new' := y.trace[|x.trace|..];
      assert new'[0].to == e.to && new'[1..] == y.trace[|d.trace|..];
    }
  }

  /** A step ticks every node once, drains every node, and then delivers what the trace gains, each
      delivery followed by a drain of every node; a proposal is followed by such a drain. */
  lemma CallsInOrder<S(!new), M(!new)>(p: Config<S, M>, x: Exec<Watch<S, M>, M>, a: Action<S>, ids: seq<Id>)
    requires Steady(p.world, ids)
    ensures var y := Perform(WatchedConfig(p), x, WatchedAction(a));
      && x.trace <= y.trace
      && Marks(y.cluster.calls) == Marks(x.cluster.calls) +
         match a
         case Advance(fuel) => Ticks(ids) + Drains(ids) + Rounds(ids, y.trace[|x.trace|..])
         case Drive(change) => [Change] + Drains(ids)
         case Restart(node, rebuild) => [Change]
  {
    hide CollectFrom, Settle, TickAll;
    match a {
      case Advance(fuel) =>
        TickMarks(p, x.cluster, ids);
        var y := x.(now := x.now + 1, cluster := TickAll(WatchedConfig(p), x.cluster, ids));
        CollectMarks(p, y, ids);
        SettleMarks(p, Begin(WatchedConfig(p), x), fuel, ids);
      case Drive(change) =>
        var s := WatchedChange<S, M>(change)(x.cluster);
        assert Marks(s.calls) == Marks(x.cluster.calls) + [Change];
        CollectMarks(p, x.(cluster := s), ids);
      case Restart(node, rebuild) =>
        var s := WatchedChange<S, M>(rebuild)(x.cluster);
        assert Marks(s.calls) == Marks(x.cluster.calls) + [Change];
    }
  }
}
