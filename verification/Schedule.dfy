/**
 * What a deterministic run is, independent of how the schedule is stored.
 *
 * The cluster under test is any value with pure operations on it, and the generator any function
 * from the bounds asked for so far to the next draw.  A run keeps the set of messages in flight;
 * the next one delivered is the earliest by due time, then by sequence number.
 */
module Schedule {
  import opened Quorums

  // ----- What is being driven -----

  datatype World<!S, !M> = World(
    nodes: S -> seq<Id>, tick: (S, Id) -> S, deliver: (S, Id, M) -> S, drain: (S, Id) -> (S, seq<M>),
    route: M -> (Id, Id), digest: M -> (nat, nat))

  datatype Injector = Injector(name: string, allow: (nat, Id, Id, nat) -> bool)

  /** `draw(bounds)` is the draw made when `bounds` lists every bound asked for, this one last. */
  datatype Config<!S, !M> = Config(world: World<S, M>, draw: seq<nat> -> nat, drop: int, delay: nat, injectors: seq<Injector>)

  datatype Event<M> = Event(at: nat, seqNo: nat, from: Id, to: Id, msg: M)

  /** One delivery, as it enters the trace. */
  datatype Record = Record(now: nat, seqNo: nat, from: Id, to: Id, kind: nat, value: nat)

  /** `isolated` counts the messages that isolating a node has discarded. */
  datatype Exec<!S, !M(==)> = Exec(now: nat, cluster: S, drawn: seq<nat>, seqNo: nat, queue: set<Event<M>>,
                               trace: seq<Record>, injected: map<string, nat>, isolated: nat)

  /** The schedule's total order. */
  predicate Earlier<M>(a: Event<M>, b: Event<M>) {
    a.at < b.at || (a.at == b.at && a.seqNo < b.seqNo)
  }

  // ----- The next delivery -----

  ghost predicate IsEarliest<M(!new)>(q: set<Event<M>>, e: Event<M>) {
    e in q && forall f :: f in q ==> !Earlier(f, e)
  }

  ghost predicate Distinct<M(!new)>(q: set<Event<M>>) {
    forall e, f :: e in q && f in q && e.seqNo == f.seqNo ==> e == f
  }

  lemma {:induction false} HasEarliest<M(!new)>(q: set<Event<M>>)
    requires q != {}
    ensures exists e :: IsEarliest(q, e)
    decreases |q|
  {
    var x :| x in q;
    if q == {x} {
      assert IsEarliest(q, x);
    } else {
      HasEarliest(q - {x});
      var y :| IsEarliest(q - {x}, y);
      var e := if Earlier(x, y) then x else y;
      forall f | f in q ensures !Earlier(f, e) {
        if f != x { assert f in q - {x}; }
      }
      assert IsEarliest(q, e);
    }
  }

  lemma EarliestUnique<M(!new)>(q: set<Event<M>>, e: Event<M>, f: Event<M>)
    requires Distinct(q) && IsEarliest(q, e) && IsEarliest(q, f)
    ensures e == f
  {
  }

  ghost function Earliest<M(!new)>(q: set<Event<M>>): (e: Event<M>)
    requires q != {}
    ensures IsEarliest(q, e)
  {
    HasEarliest(q);
    var e :| IsEarliest(q, e);
    e
  }

  // ----- Collecting -----

  /** The value of the next draw below `bound`. */
  function Drawn<S, M>(p: Config<S, M>, drawn: seq<nat>, bound: nat): nat
    requires 0 < bound
  {
    p.draw(drawn + [bound]) % bound
  }

  /** The first injector that denies the message. */
  function BlockedBy(injectors: seq<Injector>, now: nat, from: Id, to: Id, delay: nat): string {
    if injectors == [] then ""
    else if !injectors[0].allow(now, from, to, delay) then injectors[0].name
    else BlockedBy(injectors[1..], now, from, to, delay)
  }

  function Bump(counts: map<string, nat>, name: string): map<string, nat> {
    counts[name := (if name in counts then counts[name] else 0) + 1]
  }

  /** The draws one message takes: whether it is lost and, if not, its delay. */
  datatype Fate = Fate(lost: bool, delay: nat, drawn: seq<nat>)

  function FateOf<S, M>(p: Config<S, M>, drawn: seq<nat>): Fate {
    var lost := p.drop > 0 && Drawn(p, drawn, 1000) < p.drop;
    var d1 := if p.drop > 0 then drawn + [1000] else drawn;
    if lost then Fate(true, 0, d1)
    else if p.delay > 0 then Fate(false, Drawn(p, d1, p.delay + 1), d1 + [p.delay + 1])
    else Fate(false, 0, d1)
  }

  /** A message that was neither lost nor blocked enters the schedule. */
  ghost function Enter<S, M(!new)>(p: Config<S, M>, x: Exec<S, M>, m: M, delay: nat): Exec<S, M> {
    var (from, to) := p.world.route(m);
    x.(seqNo := x.seqNo + 1, queue := x.queue + {Event(x.now + delay, x.seqNo + 1, from, to, m)})
  }

  ghost function Put<S, M(!new)>(p: Config<S, M>, x: Exec<S, M>, m: M): Exec<S, M> {
    var f := FateOf(p, x.drawn);
    var x1 := x.(drawn := f.drawn);
    if f.lost then x1
    else
      var (from, to) := p.world.route(m);
      var blocked := BlockedBy(p.injectors, x.now, from, to, f.delay);
      if blocked != "" then x1.(injected := Bump(x1.injected, blocked)) else Enter(p, x1, m, f.delay)
  }

  ghost function PutAll<S, M(!new)>(p: Config<S, M>, x: Exec<S, M>, ms: seq<M>): Exec<S, M>
    decreases |ms|
  {
    if ms == [] then x else PutAll(p, Put(p, x, ms[0]), ms[1..])
  }

  ghost function CollectFrom<S, M(!new)>(p: Config<S, M>, x: Exec<S, M>, ids: seq<Id>): Exec<S, M>
    decreases |ids|
  {
    if ids == [] then x
    else
      var (cluster, ms) := p.world.drain(x.cluster, ids[0]);
      CollectFrom(p, PutAll(p, x.(cluster := cluster), ms), ids[1..])
  }

  ghost function Collect<S, M(!new)>(p: Config<S, M>, x: Exec<S, M>): Exec<S, M> {
    CollectFrom(p, x, p.world.nodes(x.cluster))
  }

  // ----- Steps -----

  function TickAll<S, M>(p: Config<S, M>, cluster: S, ids: seq<Id>): S
    decreases |ids|
  {
    if ids == [] then cluster else TickAll(p, p.world.tick(cluster, ids[0]), ids[1..])
  }

  function RecordOf<S, M>(p: Config<S, M>, now: nat, e: Event<M>): Record {
    var (kind, value) := p.world.digest(e.msg);
    Record(now, e.seqNo, e.from, e.to, kind, value)
  }

  ghost predicate Due<S, M(!new)>(x: Exec<S, M>) {
    x.queue != {} && Earliest(x.queue).at <= x.now
  }

  /** Takes one event out of the schedule and hands it to its node. */
  ghost function Take<S, M(!new)>(p: Config<S, M>, x: Exec<S, M>, e: Event<M>): Exec<S, M> {
    x.(queue := x.queue - {e}, trace := x.trace + [RecordOf(p, x.now, e)], cluster := p.world.deliver(x.cluster, e.to, e.msg))
  }

  ghost function Deliver<S, M(!new)>(p: Config<S, M>, x: Exec<S, M>): Exec<S, M>
    requires Due(x)
  {
    Collect(p, Take(p, x, Earliest(x.queue)))
  }

  /** Delivers what is due, including what deliveries produce, up to `fuel` deliveries. */
  ghost function Settle<S, M(!new)>(p: Config<S, M>, x: Exec<S, M>, fuel: nat): Exec<S, M>
    decreases fuel
  {
    if !Due(x) || fuel == 0 then x else Settle(p, Deliver(p, x), fuel - 1)
  }

  ghost function Begin<S, M(!new)>(p: Config<S, M>, x: Exec<S, M>): Exec<S, M> {
    var ids := p.world.nodes(x.cluster);
    Collect(p, x.(now := x.now + 1, cluster := TickAll(p, x.cluster, ids)))
  }

  ghost function Step<S, M(!new)>(p: Config<S, M>, x: Exec<S, M>, fuel: nat): Exec<S, M> {
    Settle(p, Begin(p, x), fuel)
  }

  predicate Touches<M>(e: Event<M>, node: Id) {
    e.from == node || e.to == node
  }

  ghost function Keep<M(!new)>(q: set<Event<M>>, node: Id): set<Event<M>> {
    set e | e in q && !Touches(e, node)
  }

  ghost function Cut<M(!new)>(q: set<Event<M>>, node: Id): set<Event<M>> {
    set e | e in q && Touches(e, node)
  }

  ghost function Isolate<S, M(!new)>(x: Exec<S, M>, node: Id): Exec<S, M> {
    x.(queue := Keep(x.queue, node), isolated := x.isolated + |Cut(x.queue, node)|)
  }

  // ----- Whole runs -----

  /** What a campaign does: steps, proposals followed by a collection, and restarts. */
  datatype Action<!S> =
    | Advance(fuel: nat)
    | Drive(change: S -> S)
    | Restart(node: Id, rebuild: S -> S)

  ghost function Perform<S, M(!new)>(p: Config<S, M>, x: Exec<S, M>, a: Action<S>): Exec<S, M> {
    match a
    case Advance(fuel) => Step(p, x, fuel)
    case Drive(change) => Collect(p, x.(cluster := change(x.cluster)))
    case Restart(node, rebuild) => Isolate(x.(cluster := rebuild(x.cluster)), node)
  }

  ghost function PerformAll<S, M(!new)>(p: Config<S, M>, x: Exec<S, M>, script: seq<Action<S>>): Exec<S, M>
    decreases |script|
  {
    if script == [] then x else PerformAll(p, Perform(p, x, script[0]), script[1..])
  }
}
