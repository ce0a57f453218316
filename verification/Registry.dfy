/** The sharded registry: a class whose methods update shards and the event
    log in place, proved against the flat-map operations of Fleet. */
module Registry {
  import opened Fleet

  const DEFAULT_SHARD_COUNT := 256

  type Shards = seq<map<Id, Agent>>

  /** Each id lives only in the shard its slot names, under its own key. */
  ghost predicate Placed(slot: Id -> nat, shards: Shards) {
    && (forall id :: slot(id) < |shards|)
    && (forall i, id :: 0 <= i < |shards| && id in shards[i] ==> slot(id) == i)
    && (forall i :: 0 <= i < |shards| ==> Keyed(shards[i]))
  }

  /** The first n shards as one map. */
  ghost function Union(shards: Shards, n: nat): map<Id, Agent>
    requires n <= |shards|
  {
    if n == 0 then map[] else Union(shards, n - 1) + shards[n - 1]
  }

  /** The one flat map the shards stand for. */
  ghost function Flat(shards: Shards): map<Id, Agent> {
    Union(shards, |shards|)
  }

  lemma {:induction false} UnionOwns(slot: Id -> nat, shards: Shards, n: nat, id: Id)
    requires Placed(slot, shards) && n <= |shards|
    ensures id in Union(shards, n) <==> slot(id) < n && id in shards[slot(id)]
    ensures id in Union(shards, n) ==> Union(shards, n)[id] == shards[slot(id)][id]
  {
    if n > 0 {
      UnionOwns(slot, shards, n - 1, id);
    }
  }

  /** Lookup in the owning shard is lookup in the flat map. */
  lemma FlatLookup(slot: Id -> nat, shards: Shards, id: Id)
    requires Placed(slot, shards)
    ensures id in Flat(shards) <==> id in shards[slot(id)]
    ensures id in Flat(shards) ==> Flat(shards)[id] == shards[slot(id)][id] && Flat(shards)[id].instanceUID == id
  {
    UnionOwns(slot, shards, |shards|, id);
  }

  lemma PlacedUpdate(slot: Id -> nat, shards: Shards, id: Id, a: Agent)
    requires Placed(slot, shards) && a.instanceUID == id
    ensures Placed(slot, shards[slot(id) := shards[slot(id)][id := a]])
  {
  }

  lemma FlatUpdate(slot: Id -> nat, shards: Shards, id: Id, a: Agent)
    requires Placed(slot, shards) && a.instanceUID == id
    ensures var shards' := shards[slot(id) := shards[slot(id)][id := a]];
            Placed(slot, shards') && Flat(shards') == Flat(shards)[id := a]
  {
    var shards' := shards[slot(id) := shards[slot(id)][id := a]];
    PlacedUpdate(slot, shards, id, a);
    forall x
      ensures x in Flat(shards') <==> x in Flat(shards)[id := a]
      ensures x in Flat(shards') ==> Flat(shards')[x] == Flat(shards)[id := a][x]
    {
      FlatLookup(slot, shards, x);
      FlatLookup(slot, shards', x);
    }
  }

  /** The first n shards are swept and the rest are as they were. */
  ghost predicate SweptTo(cfg: Config, was: Shards, shards: Shards, now: Time, n: nat) {
    && |shards| == |was|
    && (forall j :: 0 <= j < |was| && j < n ==> shards[j] == ApplyOp(cfg, was[j], Op.Sweep(now)))
    && (forall j :: n <= j < |was| ==> shards[j] == was[j])
  }

  lemma SweptToNext(cfg: Config, was: Shards, shards: Shards, now: Time, n: nat)
    requires SweptTo(cfg, was, shards, now, n) && n < |shards|
    ensures shards[n] == was[n]
    ensures SweptTo(cfg, was, shards[n := ApplyOp(cfg, shards[n], Op.Sweep(now))], now, n + 1)
  {
  }

  /** Sweeping every shard sweeps the fleet. */
  lemma FlatSweep(cfg: Config, slot: Id -> nat, shards: Shards, swept: Shards, now: Time)
    requires Placed(slot, shards) && SweptTo(cfg, shards, swept, now, |shards|)
    ensures Placed(slot, swept)
    ensures Flat(swept) == ApplyOp(cfg, Flat(shards), Op.Sweep(now))
  {
    forall x
      ensures x in Flat(swept) <==> x in ApplyOp(cfg, Flat(shards), Op.Sweep(now))
      ensures x in Flat(swept) ==> Flat(swept)[x] == ApplyOp(cfg, Flat(shards), Op.Sweep(now))[x]
    {
      FlatLookup(slot, shards, x);
      FlatLookup(slot, swept, x);
    }
  }

  lemma UnionDisjoint(slot: Id -> nat, shards: Shards, n: nat)
    requires Placed(slot, shards) && n < |shards|
    ensures Union(shards, n).Keys !! shards[n].Keys
  {
    forall id | id in shards[n] ensures id !in Union(shards, n) {
      UnionOwns(slot, shards, n, id);
    }
  }

  lemma UnionNext(slot: Id -> nat, shards: Shards, n: nat)
    requires Placed(slot, shards) && n < |shards|
    ensures Union(shards, n).Keys !! shards[n].Keys && Keyed(shards[n])
    ensures Union(shards, n + 1) == Union(shards, n) + shards[n]
  {
    UnionDisjoint(slot, shards, n);
  }

  /** A valid registry files every agent under its own uid. */
  lemma FlatKeyed(slot: Id -> nat, shards: Shards)
    requires Placed(slot, shards)
    ensures Keyed(Flat(shards))
  {
    forall id | id in Flat(shards) ensures Flat(shards)[id].instanceUID == id {
      FlatLookup(slot, shards, id);
    }
  }

  lemma ShardsPartition(slot: Id -> nat, shards: Shards)
    requires Placed(slot, shards)
    ensures forall i :: 0 <= i < |shards| ==> Union(shards, i).Keys !! shards[i].Keys && Keyed(shards[i])
  {
    forall i | 0 <= i < |shards| ensures Union(shards, i).Keys !! shards[i].Keys && Keyed(shards[i]) {
      UnionDisjoint(slot, shards, i);
    }
  }

  lemma {:induction false} NoAgents(shards: Shards, n: nat)
    requires n <= |shards| && forall i :: 0 <= i < |shards| ==> shards[i] == map[]
    ensures Union(shards, n) == map[]
  {
    if n > 0 {
      NoAgents(shards, n - 1);
    }
  }

  /** The agents once a sweep has dealt with exactly the ids in done. */
  ghost function Swept(cfg: Config, was: map<Id, Agent>, now: Time, done: set<Id>): map<Id, Agent> {
    map id | id in was && (id in done ==> !Evicts(cfg, was[id], now))
      :: if id in done then Lapse(cfg, was[id], now) else was[id]
  }

  /** The log once a sweep has dealt with exactly the ids in done. */
  ghost predicate SweptLog(cfg: Config, was: map<Id, Agent>, log: seq<Event>, now: Time, done: set<Id>, events: seq<Event>) {
    forall id :: EventsOf(events, id) == EventsOf(log, id) + if id in done then SweepEventsOf(cfg, was, id, now) else []
  }

  ghost predicate SweptOut(cfg: Config, was: map<Id, Agent>, now: Time, done: set<Id>, evicted: seq<Id>) {
    && (forall id :: id in evicted <==> id in done && id in was && Evicts(cfg, was[id], now))
    && (forall j, k :: 0 <= j < k < |evicted| ==> evicted[j] != evicted[k])
  }

  /** A sweep that has dealt with the first n shards. */
  ghost predicate SweepState(cfg: Config, was: Shards, shards: Shards, log: seq<Event>, events: seq<Event>, evicted: seq<Id>,
                             now: Time, n: nat)
  {
    && n <= |was| && SweptTo(cfg, was, shards, now, n)
    && SweptLog(cfg, Union(was, n), log, now, Union(was, n).Keys, events)
    && SweptOut(cfg, Union(was, n), now, Union(was, n).Keys, evicted)
  }

  lemma SweptOne(cfg: Config, was: map<Id, Agent>, now: Time, done: set<Id>, id: Id)
    requires id in was && id !in done
    ensures id in Swept(cfg, was, now, done) && Swept(cfg, was, now, done)[id] == was[id]
    ensures Swept(cfg, was, now, done + {id})
         == if Evicts(cfg, was[id], now) then Swept(cfg, was, now, done) - {id}
            else Swept(cfg, was, now, done)[id := Lapse(cfg, was[id], now)]
  {
  }

  lemma SweptLogOne(cfg: Config, was: map<Id, Agent>, log: seq<Event>, now: Time, done: set<Id>, events: seq<Event>, id: Id)
    requires SweptLog(cfg, was, log, now, done, events)
    requires id in was && id !in done
    ensures SweptLog(cfg, was, log, now, done + {id}, events + SweepEventsOf(cfg, was, id, now))
  {
    var fired := SweepEventsOf(cfg, was, id, now);
    forall x
      ensures EventsOf(events + fired, x)
           == EventsOf(log, x) + if x in done + {id} then SweepEventsOf(cfg, was, x, now) else []
    {
      EventsOfConcat(events, fired, x);
      SweepEventsMention(cfg, was, id, now, x);
      assert EventsOf(log, x) + [] == EventsOf(log, x);
    }
  }

  lemma SweptOutOne(cfg: Config, was: map<Id, Agent>, now: Time, done: set<Id>, evicted: seq<Id>, id: Id)
    requires SweptOut(cfg, was, now, done, evicted)
    requires id in was && id !in done
    ensures SweptOut(cfg, was, now, done + {id}, if Evicts(cfg, was[id], now) then evicted + [id] else evicted)
  {
  }

  lemma SweptNone(cfg: Config, was: map<Id, Agent>, now: Time)
    ensures Swept(cfg, was, now, {}) == was
  {
  }

  lemma SweptAll(cfg: Config, was: map<Id, Agent>, now: Time)
    ensures Swept(cfg, was, now, was.Keys) == ApplyOp(cfg, was, Op.Sweep(now))
  {
  }

  lemma SweptLogAll(cfg: Config, was: map<Id, Agent>, log: seq<Event>, now: Time, events: seq<Event>)
    requires SweptLog(cfg, was, log, now, was.Keys, events)
    ensures forall id :: EventsOf(events, id) == EventsOf(log, id) + SweepEventsOf(cfg, was, id, now)
  {
  }

  lemma SweptLogJoin(cfg: Config, a: map<Id, Agent>, b: map<Id, Agent>, log: seq<Event>, mid: seq<Event>,
                     events: seq<Event>, now: Time)
    requires a.Keys !! b.Keys
    requires SweptLog(cfg, a, log, now, a.Keys, mid) && SweptLog(cfg, b, mid, now, b.Keys, events)
    ensures SweptLog(cfg, a + b, log, now, (a + b).Keys, events)
  {
  }

  lemma SweptOutJoin(cfg: Config, a: map<Id, Agent>, b: map<Id, Agent>, now: Time, out: seq<Id>, gone: seq<Id>)
    requires a.Keys !! b.Keys
    requires SweptOut(cfg, a, now, a.Keys, out) && SweptOut(cfg, b, now, b.Keys, gone)
    ensures SweptOut(cfg, a + b, now, (a + b).Keys, out + gone)
  {
    var all := out + gone;
    forall j, k | 0 <= j < k < |all| ensures all[j] != all[k] {
      assert k >= |out| ==> gone[k - |out|] in gone;
      assert j < |out| ==> out[j] in out;
    }
  }

  lemma EventsOfOne(e: Event, x: Id)
    ensures EventsOf([e], x) == if e.id == x then [e] else []
  {
  }

  lemma SweepEventsMention(cfg: Config, agents: map<Id, Agent>, id: Id, now: Time, x: Id)
    ensures EventsOf(SweepEventsOf(cfg, agents, id, now), x)
         == if x == id then SweepEventsOf(cfg, agents, id, now) else []
  {
    EventsOfOne(AgentDisconnected(id), x);
    EventsOfOne(AgentEvicted(id), x);
    EventsOfConcat([AgentDisconnected(id)], [AgentEvicted(id)], x);
    assert [AgentDisconnected(id)] + [] == [AgentDisconnected(id)] && [] + [AgentEvicted(id)] == [AgentEvicted(id)];
  }

  /** What a walk has covered: everything before this shard, and this shard but for todo. */
  ghost function Sofar(before: map<Id, Agent>, shard: map<Id, Agent>, todo: set<Id>): map<Id, Agent> {
    before + (shard - todo)
  }

  lemma SofarOn(before: map<Id, Agent>, shard: map<Id, Agent>, todo: set<Id>, id: Id)
    requires before.Keys !! shard.Keys && id in todo && todo <= shard.Keys
    ensures id !in Sofar(before, shard, todo)
    ensures Sofar(before, shard, todo - {id}) == Sofar(before, shard, todo)[id := shard[id]]
  {
  }

  lemma SofarEnds(before: map<Id, Agent>, shard: map<Id, Agent>)
    ensures Sofar(before, shard, shard.Keys) == before
    ensures Sofar(before, shard, {}) == before + shard
  {
  }

  lemma ListsOneMore(list: seq<Agent>, agents: map<Id, Agent>, id: Id, a: Agent)
    requires Lists(list, agents) && id !in agents && a.instanceUID == id
    ensures Lists(list + [a], agents[id := a])
  {
  }

  // ----- counting the fleet -----

  datatype ConnRoute = ConnRoute(transport: string, via: string)

  datatype FleetStats = FleetStats(size: nat, connected: map<ConnRoute, nat>, disconnected: nat, noncompliant: nat,
                                   supervisorManaged: nat, awaitingFullState: nat)

  const SUPERVISOR_VALUE := "opentelemetry-opampsupervisor"

  const NO_STATS := FleetStats(0, map[], 0, 0, 0, 0)

  function RouteOf(a: Agent): ConnRoute {
    ConnRoute(a.conn.transport, if a.conn.viaGateway then "gateway" else "direct")
  }

  predicate SupervisorManaged(a: Agent) {
    var key := "opamp.managed_by";
    var value := if key in a.identifying then a.identifying[key]
                 else if key in a.nonIdentifying then a.nonIdentifying[key] else "";
    value == SUPERVISOR_VALUE
  }

  function CountAt(counts: map<ConnRoute, nat>, route: ConnRoute): nat {
    if route in counts then counts[route] else 0
  }

  /** What a fleet can be counted by. */
  datatype Category = Down | Noncompliant | Managed | Awaiting | OnRoute(route: ConnRoute) | OnRoutes(routes: set<ConnRoute>)

  ghost predicate Belongs(a: Agent, c: Category) {
    match c
    case Down => !a.connected
    case Noncompliant => a.missingAttributes != []
    case Managed => SupervisorManaged(a)
    case Awaiting => !a.descriptionReported
    case OnRoute(route) => a.connected && RouteOf(a) == route
    case OnRoutes(routes) => a.connected && RouteOf(a) in routes
  }

  ghost function Members(agents: map<Id, Agent>, c: Category): set<Id> {
    set id | id in agents && Belongs(agents[id], c)
  }

  ghost function CountWhere(agents: map<Id, Agent>, c: Category): nat {
    |Members(agents, c)|
  }

  /** The number a set of counts shows for a category. */
  function Shown(stats: FleetStats, c: Category): nat
    requires !c.OnRoutes?
  {
    match c
    case Down => stats.disconnected
    case Noncompliant => stats.noncompliant
    case Managed => stats.supervisorManaged
    case Awaiting => stats.awaitingFullState
    case OnRoute(route) => CountAt(stats.connected, route)
  }

  /** The counts a fleet should show, said of the set of agents and not of any walk over it. */
  ghost predicate IsStats(stats: FleetStats, agents: map<Id, Agent>) {
    && stats.size == |agents|
    && (forall c: Category | !c.OnRoutes? :: Shown(stats, c) == CountWhere(agents, c))
    && (forall route :: route in stats.connected ==> stats.connected[route] > 0)
  }

  lemma CountOneMore(agents: map<Id, Agent>, id: Id, a: Agent, c: Category)
    requires id !in agents
    ensures CountWhere(agents[id := a], c) == CountWhere(agents, c) + if Belongs(a, c) then 1 else 0
  {
    var before := Members(agents, c);
    assert Members(agents[id := a], c) == if Belongs(a, c) then before + {id} else before;
  }

  /** What Aggregate does for one more agent. */
  function Bump(stats: FleetStats, a: Agent): FleetStats {
    FleetStats(
      stats.size + 1,
      if a.connected then stats.connected[RouteOf(a) := CountAt(stats.connected, RouteOf(a)) + 1] else stats.connected,
      if a.connected then stats.disconnected else stats.disconnected + 1,
      if a.missingAttributes != [] then stats.noncompliant + 1 else stats.noncompliant,
      if SupervisorManaged(a) then stats.supervisorManaged + 1 else stats.supervisorManaged,
      if a.descriptionReported then stats.awaitingFullState else stats.awaitingFullState + 1)
  }

  lemma StatsOneMore(stats: FleetStats, agents: map<Id, Agent>, id: Id, a: Agent)
    requires IsStats(stats, agents) && id !in agents
    ensures IsStats(Bump(stats, a), agents[id := a])
  {
    forall c: Category | !c.OnRoutes?
      ensures Shown(Bump(stats, a), c) == CountWhere(agents[id := a], c)
    {
      CountOneMore(agents, id, a, c);
      BumpShows(stats, a, c);
    }
  }

  lemma BumpShows(stats: FleetStats, a: Agent, c: Category)
    requires !c.OnRoutes?
    ensures Shown(Bump(stats, a), c) == Shown(stats, c) + if Belongs(a, c) then 1 else 0
  {
  }

  ghost function AnyRoute(counts: map<ConnRoute, nat>): (route: ConnRoute)
    requires counts != map[]
    ensures route in counts
  {
    assert counts.Keys != {};
    var route :| route in counts;
    route
  }

  ghost function Total(counts: map<ConnRoute, nat>): nat {
    if counts == map[] then 0
    else var route := AnyRoute(counts); counts[route] + Total(counts - {route})
  }

  lemma RoutesSplit(agents: map<Id, Agent>, route: ConnRoute, rest: set<ConnRoute>)
    requires route !in rest
    ensures CountWhere(agents, OnRoutes({route} + rest))
         == CountWhere(agents, OnRoute(route)) + CountWhere(agents, OnRoutes(rest))
  {
    var here, elsewhere := Members(agents, OnRoute(route)), Members(agents, OnRoutes(rest));
    assert Members(agents, OnRoutes({route} + rest)) == here + elsewhere;
    assert here !! elsewhere;
  }

  lemma {:induction false} TotalCounts(counts: map<ConnRoute, nat>, agents: map<Id, Agent>)
    requires forall route :: route in counts ==> counts[route] == CountWhere(agents, OnRoute(route))
    ensures Total(counts) == CountWhere(agents, OnRoutes(counts.Keys))
    decreases |counts|
  {
    if counts != map[] {
      var route := AnyRoute(counts);
      var rest := counts - {route};
      TotalCounts(rest, agents);
      RoutesSplit(agents, route, rest.Keys);
      assert counts.Keys == {route} + rest.Keys;
    } else {
      assert Members(agents, OnRoutes(counts.Keys)) == {};
    }
  }

  /** Every agent is counted as disconnected or on exactly one route. */
  lemma SizeIsDisconnectedPlusRoutes(stats: FleetStats, agents: map<Id, Agent>)
    requires IsStats(stats, agents)
    ensures stats.size == stats.disconnected + Total(stats.connected)
  {
    forall route | route in stats.connected
      ensures stats.connected[route] == CountWhere(agents, OnRoute(route))
    {
      assert Shown(stats, OnRoute(route)) == stats.connected[route];
    }
    TotalCounts(stats.connected, agents);
    assert Shown(stats, Down) == stats.disconnected;
    EveryRouteShown(stats, agents);
    UpAndDown(agents, stats.connected.Keys);
  }

  lemma EveryRouteShown(stats: FleetStats, agents: map<Id, Agent>)
    requires IsStats(stats, agents)
    ensures forall id :: id in agents && agents[id].connected ==> RouteOf(agents[id]) in stats.connected
  {
    forall id | id in agents && agents[id].connected ensures RouteOf(agents[id]) in stats.connected {
      var route := RouteOf(agents[id]);
      assert id in Members(agents, OnRoute(route));
      assert Shown(stats, OnRoute(route)) > 0;
    }
  }

  lemma UpAndDown(agents: map<Id, Agent>, routes: set<ConnRoute>)
    requires forall id :: id in agents && agents[id].connected ==> RouteOf(agents[id]) in routes
    ensures |agents| == CountWhere(agents, Down) + CountWhere(agents, OnRoutes(routes))
  {
    var up, down := Members(agents, OnRoutes(routes)), Members(agents, Down);
    assert up + down == agents.Keys && up !! down;
  }

  function Tally(list: seq<Agent>): FleetStats {
    if list == [] then NO_STATS else Bump(Tally(list[..|list| - 1]), list[|list| - 1])
  }

  lemma {:induction false} TallyIsStats(list: seq<Agent>, agents: map<Id, Agent>)
    requires Lists(list, agents)
    ensures IsStats(Tally(list), agents)
  {
    if list == [] {
      NoStats();
      assert agents == map[];
    } else {
      var n := |list| - 1;
      var last := list[n];
      var rest := agents - {last.instanceUID};
      ListsOneLess(list, agents);
      TallyIsStats(list[..n], rest);
      StatsOneMore(Tally(list[..n]), rest, last.instanceUID, last);
      assert rest[last.instanceUID := last] == agents;
    }
  }

  lemma ListsOneLess(list: seq<Agent>, agents: map<Id, Agent>)
    requires Lists(list, agents) && list != []
    ensures Lists(list[..|list| - 1], agents - {list[|list| - 1].instanceUID})
  {
    var n := |list| - 1;
    UidsHave(list[..n], list[n].instanceUID);
  }

  lemma NoStats()
    ensures IsStats(NO_STATS, map[])
  {
  }

  lemma StatsUnique(s: FleetStats, t: FleetStats, agents: map<Id, Agent>)
    requires IsStats(s, agents) && IsStats(t, agents)
    ensures s == t
  {
    forall route
      ensures route in s.connected <==> route in t.connected
      ensures route in s.connected ==> s.connected[route] == t.connected[route]
    {
      assert Shown(s, OnRoute(route)) == Shown(t, OnRoute(route));
    }
    assert s.connected == t.connected;
    assert Shown(s, Down) == Shown(t, Down) && Shown(s, Noncompliant) == Shown(t, Noncompliant);
    assert Shown(s, Managed) == Shown(t, Managed) && Shown(s, Awaiting) == Shown(t, Awaiting);
  }

  /** Aggregate's in-place counts are the fold over any listing of the fleet. */
  lemma StatsAreTheFoldOverList(stats: FleetStats, list: seq<Agent>, agents: map<Id, Agent>)
    requires Lists(list, agents) && IsStats(stats, agents)
    ensures stats == Tally(list)
  {
    TallyIsStats(list, agents);
    StatsUnique(stats, Tally(list), agents);
  }

  /** The counts of the first n shards, and a listing they are the fold of. */
  ghost predicate Counted(shards: Shards, n: nat, stats: FleetStats, list: seq<Agent>) {
    n <= |shards| && Lists(list, Union(shards, n)) && stats == Tally(list)
  }

  lemma NoneCounted(shards: Shards)
    ensures Counted(shards, 0, NO_STATS, [])
  {
  }

  class Registry {
    const cfg: Config
    const slot: Id -> nat
    var shards: Shards
    var events: seq<Event>

    ghost predicate Valid()
      reads this
    {
      Placed(slot, shards)
    }

    ghost function Agents(): map<Id, Agent>
      reads this
    {
      Flat(shards)
    }

    /** The abstract state every operation is specified on. */
    ghost function View(): State
      reads this
    {
      State(Agents(), events)
    }

    /** hash stands for FNV-1a, which is left uninterpreted. */
    constructor (cfg: Config, hash: Id -> nat, shardCount: int)
      ensures Valid() && View() == EMPTY
      ensures this.cfg == cfg
      ensures |shards| == if shardCount <= 0 then DEFAULT_SHARD_COUNT else shardCount
      ensures forall id :: slot(id) == hash(id) % |shards|
    {
      var count := if shardCount <= 0 then DEFAULT_SHARD_COUNT else shardCount;
      this.cfg := cfg;
      slot := id => hash(id) % count;
      shards := seq(count, _ => map[]);
      events := [];
      new;
      NoAgents(shards, count);
    }

    method Notify(kind: KeyKind, id: Id, keys: seq<string>)
      modifies this`events
      ensures events == old(events) + KeyEvents(kind, id, keys)
    {
      for i := 0 to |keys|
        invariant events == old(events) + KeyEvents(kind, id, keys[..i])
      {
        events := events + [KeyEvent(kind, id, keys[i])];
        assert keys[..i + 1][..i] == keys[..i];
      }
      assert keys[..|keys|] == keys;
    }

    /** Records which required keys the agent lacks; fires only on change. */
    method CheckRequiredAttributes(agent: Agent) returns (r: Agent)
      modifies this`events
      ensures r == agent.(missingAttributes := MissingKeys(agent, cfg.requiredAttributes))
      ensures events == old(events)
                        + ChangeEvents(Missing, agent.instanceUID, agent.missingAttributes, r.missingAttributes)
    {
      var missing: seq<string> := [];
      for i := 0 to |cfg.requiredAttributes|
        invariant missing == MissingKeys(agent, cfg.requiredAttributes[..i])
      {
        assert cfg.requiredAttributes[..i + 1][..i] == cfg.requiredAttributes[..i];
        var key := cfg.requiredAttributes[i];
        if key !in agent.identifying && key !in agent.nonIdentifying {
          missing := missing + [key];
        }
      }
      assert cfg.requiredAttributes[..|cfg.requiredAttributes|] == cfg.requiredAttributes;
      r := agent.(missingAttributes := missing);
      if missing != [] && agent.missingAttributes != missing {
        Notify(Missing, agent.instanceUID, missing);
      }
    }

    /** Records which reserved keys the agent reports; fires only on change. */
    method CheckReservedAttributeConflicts(agent: Agent) returns (r: Agent)
      modifies this`events
      ensures r == agent.(reservedConflicts := ConflictKeys(agent, RESERVED_ATTRIBUTE_KEYS))
      ensures events == old(events)
                        + ChangeEvents(Reserved, agent.instanceUID, agent.reservedConflicts, r.reservedConflicts)
    {
      var conflicts: seq<string> := [];
      for i := 0 to |RESERVED_ATTRIBUTE_KEYS|
        invariant conflicts == ConflictKeys(agent, RESERVED_ATTRIBUTE_KEYS[..i])
      {
        assert RESERVED_ATTRIBUTE_KEYS[..i + 1][..i] == RESERVED_ATTRIBUTE_KEYS[..i];
        var key := RESERVED_ATTRIBUTE_KEYS[i];
        if key in agent.identifying || key in agent.nonIdentifying {
          conflicts := conflicts + [key];
        }
      }
      assert RESERVED_ATTRIBUTE_KEYS[..|RESERVED_ATTRIBUTE_KEYS|] == RESERVED_ATTRIBUTE_KEYS;
      r := agent.(reservedConflicts := conflicts);
      if conflicts != [] && agent.reservedConflicts != conflicts {
        Notify(Reserved, agent.instanceUID, conflicts);
      }
    }

    method TakeDescriptionInto(agent: Agent, d: Description) returns (r: Agent)
      modifies this`events
      ensures r == TakeDescription(cfg, agent, d)
      ensures events == old(events) + DescriptionEvents(cfg, agent, d)
    {
      events := events + [ReportReceived(agent.instanceUID, "status")];
      var described := agent.(descriptionReported := true, identifying := d.identifying, nonIdentifying := d.nonIdentifying);
      r := CheckRequiredAttributes(described);
      KeysDependOnAttributes(r, described, RESERVED_ATTRIBUTE_KEYS);
      r := CheckReservedAttributeConflicts(r);
    }

    /** Applies a message's health, package and config parts, notifying for each. */
    method TakeReports(known: Agent, msg: Message) returns (agent: Agent)
      modifies this`events
      ensures agent == FoldReports(known, msg)
      ensures events == old(events) + ReportsEvents(known.instanceUID, msg)
    {
      var id := known.instanceUID;
      agent := known;
      if msg.health.Some? {
        events := events + [ReportReceived(id, "health")];
        agent := TakeHealth(agent, msg.health.value);
      }
      if msg.packages != map[] {
        events := events + [ReportReceived(id, "package_statuses")];
        agent := agent.(packages := msg.packages);
      }
      if msg.config != map[] {
        events := events + [ReportReceived(id, "effective_config")];
        agent := agent.(effectiveConfig := msg.config);
      }
    }

    /** Records the check-in itself and the fields every message carries. */
    method CheckIn(known: Agent, msg: Message, meta: ConnMeta, now: Time) returns (agent: Agent)
      modifies this`events
      ensures agent == Touch(known, msg, meta, now)
      ensures events == old(events) + ConnectEvents(known)
    {
      if !known.connected {
        events := events + [AgentConnected(known.instanceUID)];
      }
      agent := known.(lastSeen := now, connected := true, conn := meta, sequenceNum := msg.sequenceNum);
      if msg.capabilities != 0 {
        agent := agent.(capabilities := msg.capabilities);
      }
    }

    /** Folds one message into one agent, notifying as each part is applied. */
    method FoldInto(known: Agent, msg: Message, meta: ConnMeta, now: Time) returns (agent: Agent)
      modifies this`events
      ensures agent == Fold(cfg, known, msg, meta, now)
      ensures events == old(events) + ReportEvents(cfg, known, msg)
    {
      agent := CheckIn(known, msg, meta, now);
      if msg.description.Some? {
        TouchKeepsDescriptionEvents(cfg, known, agent, msg.description.value);
        agent := TakeDescriptionInto(agent, msg.description.value);
      }
      ghost var described := if msg.description.Some? then DescriptionEvents(cfg, known, msg.description.value) else [];
      assert events == old(events) + ConnectEvents(known) + described;
      agent := TakeReports(agent, msg);
      Regroup(old(events), ConnectEvents(known), described, ReportsEvents(known.instanceUID, msg));
    }

    /** Folds a message into the fleet; a message without a valid uid changes nothing. */
    method Report(msg: Message, meta: ConnMeta, now: Time)
      requires Valid()
      modifies this
      ensures Valid() && |shards| == old(|shards|)
      ensures Step(cfg, old(View()), Op.Report(msg, meta, now), View())
    {
      if msg.uid.None? { return; }
      var id := msg.uid.value;
      var i := slot(id);
      FlatLookup(slot, shards, id);
      var agent := if id in shards[i] then shards[i][id] else Fresh(id, now);
      agent := FoldInto(agent, msg, meta, now);
      FlatUpdate(slot, shards, id, agent);
      shards := shards[i := shards[i][id := agent]];
    }

    /** Sets liveness only; an unknown id is ignored. */
    method SetConnected(id: Id, connected: bool)
      requires Valid()
      modifies this
      ensures Valid() && |shards| == old(|shards|)
      ensures Step(cfg, old(View()), Op.SetConnected(id, connected), View())
    {
      var i := slot(id);
      FlatLookup(slot, shards, id);
      if id !in shards[i] { return; }
      var agent := shards[i][id];
      if agent.connected && !connected {
        events := events + [AgentDisconnected(id)];
      } else if !agent.connected && connected {
        events := events + [AgentConnected(id)];
      }
      FlatUpdate(slot, shards, id, agent.(connected := connected));
      shards := shards[i := shards[i][id := agent.(connected := connected)]];
    }

    /** Sweeps one shard: disconnects its lapsed agents and evicts its over-age ones. */
    method SweepShard(shard: map<Id, Agent>, now: Time) returns (swept: map<Id, Agent>, evicted: seq<Id>)
      modifies this`events
      ensures swept == ApplyOp(cfg, shard, Op.Sweep(now))
      ensures SweptLog(cfg, shard, old(events), now, shard.Keys, events)
      ensures SweptOut(cfg, shard, now, shard.Keys, evicted)
    {
      swept, evicted := shard, [];
      var todo := shard.Keys;
      ghost var done: set<Id> := {};
      SweptNone(cfg, shard, now);
      while todo != {}
        invariant todo !! done && todo + done == shard.Keys
        invariant swept == Swept(cfg, shard, now, done)
        invariant SweptLog(cfg, shard, old(events), now, done, events)
        invariant SweptOut(cfg, shard, now, done, evicted)
      {
        var id :| id in todo;
        SweptOne(cfg, shard, now, done, id);
        SweptLogOne(cfg, shard, old(events), now, done, events, id);
        SweptOutOne(cfg, shard, now, done, evicted, id);
        var gone;
        swept, gone := SweepAgent(id, swept, now);
        evicted := if gone then evicted + [id] else evicted;
        todo, done := todo - {id}, done + {id};
      }
      SweptAll(cfg, shard, now);
    }

    method SweepAgent(id: Id, shard: map<Id, Agent>, now: Time) returns (swept: map<Id, Agent>, evicted: bool)
      requires id in shard
      modifies this`events
      ensures evicted == Evicts(cfg, shard[id], now)
      ensures swept == if evicted then shard - {id} else shard[id := Lapse(cfg, shard[id], now)]
      ensures events == old(events) + SweepEventsOf(cfg, shard, id, now)
    {
      swept := shard;
      var agent := shard[id];
      var age := now - agent.lastSeen;
      if agent.connected && age > DisconnectThreshold(cfg) {
        swept := swept[id := agent.(connected := false)];
        events := events + [AgentDisconnected(id)];
      }
      evicted := age > EvictAfter(cfg);
      if evicted {
        swept := swept - {id};
        events := events + [AgentEvicted(id)];
      }
    }

    /** Sweeps shard i, given that the shards before it are already swept. */
    method SweepAt(i: nat, now: Time, evicted: seq<Id>, ghost was: Shards, ghost log: seq<Event>)
      returns (out: seq<Id>)
      requires i < |was| && Union(was, i).Keys !! was[i].Keys
      requires SweepState(cfg, was, shards, log, events, evicted, now, i)
      modifies this
      ensures SweepState(cfg, was, shards, log, events, out, now, i + 1)
    {
      ghost var logged := events;
      SweptToNext(cfg, was, shards, now, i);
      var swept, gone := SweepShard(shards[i], now);
      SweptLogJoin(cfg, Union(was, i), was[i], log, logged, events, now);
      SweptOutJoin(cfg, Union(was, i), was[i], now, evicted, gone);
      shards := shards[i := swept];
      out := evicted + gone;
    }

    /** Disconnects lapsed agents and evicts over-age ones, shard by shard. */
    method Sweep(now: Time) returns (evicted: seq<Id>)
      requires Valid()
      modifies this
      ensures Valid() && |shards| == old(|shards|)
      ensures Step(cfg, old(View()), Op.Sweep(now), View())
      ensures SweptOut(cfg, old(Agents()), now, old(Agents()).Keys, evicted)
    {
      evicted := [];
      ghost var was, log := shards, events;
      for i := 0 to |shards|
        invariant SweepState(cfg, was, shards, log, events, evicted, now, i)
      {
        UnionDisjoint(slot, was, i);
        evicted := SweepAt(i, now, evicted, was, log);
      }
      FlatSweep(cfg, slot, was, shards, now);
      SweptLogAll(cfg, Flat(was), log, now, events);
    }

    method ListShard(shard: map<Id, Agent>, list: seq<Agent>, ghost before: map<Id, Agent>) returns (out: seq<Agent>)
      requires Lists(list, before) && Keyed(shard) && before.Keys !! shard.Keys
      ensures Lists(out, before + shard)
    {
      out := list;
      var todo := shard.Keys;
      SofarEnds(before, shard);
      while todo != {}
        invariant todo <= shard.Keys
        invariant Lists(out, Sofar(before, shard, todo))
      {
        var id :| id in todo;
        SofarOn(before, shard, todo, id);
        ListsOneMore(out, Sofar(before, shard, todo), id, shard[id]);
        out := out + [shard[id]];
        todo := todo - {id};
      }
    }

    method List() returns (list: seq<Agent>)
      requires Valid()
      ensures Lists(list, Agents())
    {
      list := [];
      ShardsPartition(slot, shards);
      for i := 0 to |shards|
        invariant Lists(list, Union(shards, i))
      {
        list := ListShard(shards[i], list, Union(shards, i));
      }
    }

    method Count(before: FleetStats, agent: Agent) returns (stats: FleetStats)
      ensures stats == Bump(before, agent)
    {
      stats := before.(size := before.size + 1);
      if agent.connected {
        var route := RouteOf(agent);
        stats := stats.(connected := stats.connected[route := CountAt(stats.connected, route) + 1]);
      } else {
        stats := stats.(disconnected := stats.disconnected + 1);
      }
      if agent.missingAttributes != [] {
        stats := stats.(noncompliant := stats.noncompliant + 1);
      }
      if SupervisorManaged(agent) {
        stats := stats.(supervisorManaged := stats.supervisorManaged + 1);
      }
      if !agent.descriptionReported {
        stats := stats.(awaitingFullState := stats.awaitingFullState + 1);
      }
    }

    method CountShard(shard: map<Id, Agent>, before: FleetStats, ghost list: seq<Agent>, ghost counted: map<Id, Agent>)
      returns (stats: FleetStats, ghost list': seq<Agent>)
      requires Lists(list, counted) && before == Tally(list)
      requires Keyed(shard) && counted.Keys !! shard.Keys
      ensures Lists(list', counted + shard) && stats == Tally(list')
    {
      stats, list' := before, list;
      var todo := shard.Keys;
      SofarEnds(counted, shard);
      while todo != {}
        invariant todo <= shard.Keys
        invariant Lists(list', Sofar(counted, shard, todo)) && stats == Tally(list')
      {
        var id :| id in todo;
        SofarOn(counted, shard, todo, id);
        ListsOneMore(list', Sofar(counted, shard, todo), id, shard[id]);
        stats := Count(stats, shard[id]);
        assert (list' + [shard[id]])[..|list'|] == list';
        todo, list' := todo - {id}, list' + [shard[id]];
      }
    }

    /** Counts shard i, given that the shards before it are counted. */
    method CountNext(i: nat, before: FleetStats, ghost list: seq<Agent>) returns (stats: FleetStats, ghost list': seq<Agent>)
      requires Valid() && i < |shards| && Counted(shards, i, before, list)
      ensures Counted(shards, i + 1, stats, list')
    {
      UnionNext(slot, shards, i);
      stats, list' := CountShard(shards[i], before, list, Union(shards, i));
    }

    method CountShards() returns (stats: FleetStats, ghost list: seq<Agent>)
      requires Valid()
      ensures Counted(shards, |shards|, stats, list)
    {
      stats, list := NO_STATS, [];
      NoneCounted(shards);
      for i := 0 to |shards|
        invariant Counted(shards, i, stats, list)
      {
        stats, list := CountNext(i, stats, list);
      }
    }

    /** Folds the fleet into counts in place, without building a list. */
    method Aggregate() returns (stats: FleetStats)
      requires Valid()
      ensures IsStats(stats, Agents())
    {
      ghost var list;
      stats, list := CountShards();
      TallyIsStats(list, Agents());
    }

    method Get(id: Id) returns (r: Option<Agent>)
      requires Valid()
      ensures r == if id in Agents() then Some(Agents()[id]) else None
    {
      FlatLookup(slot, shards, id);
      var i := slot(id);
      r := if id in shards[i] then Some(shards[i][id]) else None;
    }
  }

  lemma Regroup(a: seq<Event>, b: seq<Event>, c: seq<Event>, d: seq<Event>)
    ensures a + b + c + d == a + (b + c + d)
  {
  }

  lemma TouchKeepsDescriptionEvents(cfg: Config, a: Agent, b: Agent, d: Description)
    requires a.instanceUID == b.instanceUID
    requires a.missingAttributes == b.missingAttributes && a.reservedConflicts == b.reservedConflicts
    ensures DescriptionEvents(cfg, a, d) == DescriptionEvents(cfg, b, d)
  {
    var a', b' := WithAttributes(a, d), WithAttributes(b, d);
    KeysDependOnAttributes(a', b', cfg.requiredAttributes);
    KeysDependOnAttributes(a', b', RESERVED_ATTRIBUTE_KEYS);
  }
}
