/** The OpAMP endpoint: connections with their bookkeeping, the gateway counters and the
    request for full state, first as the handler's callbacks and then over whole runs. */
module Handler {
  import opened Fleet
  import Registry

  /** What the handler keeps of one open connection. */
  datatype Conn = Conn(transport: string, viaGateway: bool, agents: set<Id>)

  /** What the network connection says about its peer. */
  datatype Peer = Peer(remoteAddr: string, tlsSubject: string)

  datatype Reply =
    | StatusReply(reportFullState: bool)
    | GatewayReply(accept: bool, requestUID: string)

  function Meta(conn: Conn, peer: Peer): ConnMeta {
    ConnMeta(peer.remoteAddr, peer.tlsSubject, conn.viaGateway, conn.transport)
  }

  function Tracking(conn: Conn, msg: Message): Conn {
    if msg.uid.None? then conn else conn.(agents := conn.agents + {msg.uid.value})
  }

  predicate NeedsFullState(agents: map<Id, Agent>, msg: Message) {
    msg.uid.Some? && msg.uid.value in agents && !agents[msg.uid.value].descriptionReported
  }

  /** The agents once those of ids are marked disconnected. */
  function Disconnected(agents: map<Id, Agent>, ids: set<Id>): map<Id, Agent> {
    map id | id in agents :: if id in ids then agents[id].(connected := false) else agents[id]
  }

  ghost function AfterDisconnects(cfg: Config, s: State, order: seq<Id>): State {
    if order == [] then s
    else
      var mid, id := AfterDisconnects(cfg, s, order[..|order| - 1]), order[|order| - 1];
      State(ApplyOp(cfg, mid.agents, Op.SetConnected(id, false)),
            mid.log + (if id in mid.agents then SetConnectedEvents(mid.agents[id], false) else []))
  }

  /** The order in which a close walks its agents does not matter to them. */
  lemma {:induction false} DisconnectsInAnyOrder(cfg: Config, s: State, order: seq<Id>)
    ensures AfterDisconnects(cfg, s, order).agents == Disconnected(s.agents, set id | id in order)
  {
    if order != [] {
      DisconnectsInAnyOrder(cfg, s, order[..|order| - 1]);
    }
  }

  class ConnState {
    const transport: string
    var viaGateway: bool
    var agents: set<Id>

    constructor (transport: string)
      ensures View() == Conn(transport, false, {})
    {
      this.transport, viaGateway, agents := transport, false, {};
    }

    function View(): Conn
      reads this
    {
      Conn(transport, viaGateway, agents)
    }
  }

  class Handler {
    const registry: Registry.Registry
    var draining: bool
    var gatewaysOpened: nat
    var gatewaysClosed: nat

    constructor (registry: Registry.Registry)
      ensures this.registry == registry && !draining && gatewaysOpened == gatewaysClosed == 0
    {
      this.registry, draining, gatewaysOpened, gatewaysClosed := registry, false, 0, 0;
    }

    method Drain()
      modifies this
      ensures draining && gatewaysOpened == old(gatewaysOpened) && gatewaysClosed == old(gatewaysClosed)
    {
      draining := true;
    }

    /** Null stands for the refusal with status 503. */
    method OnConnecting(transport: string) returns (cs: ConnState?)
      ensures draining ==> cs == null
      ensures !draining ==> cs != null && fresh(cs) && cs.View() == Conn(transport, false, {})
    {
      if draining {
        return null;
      }
      cs := new ConnState(transport);
    }

    method TrackAgent(cs: ConnState, msg: Message)
      modifies cs
      ensures cs.View() == Tracking(old(cs.View()), msg)
    {
      if msg.uid.None? { return; }
      cs.agents := cs.agents + {msg.uid.value};
    }

    method OnStatus(cs: ConnState, msg: Message, peer: Peer, now: Time) returns (reply: Reply)
      requires registry.Valid()
      modifies cs, registry
      ensures registry.Valid() && cs.View() == Tracking(old(cs.View()), msg)
      ensures Step(registry.cfg, old(registry.View()), Op.Report(msg, Meta(old(cs.View()), peer), now), registry.View())
      ensures reply == StatusReply(NeedsFullState(registry.Agents(), msg))
    {
      TrackAgent(cs, msg);
      registry.Report(msg, ConnMeta(peer.remoteAddr, peer.tlsSubject, cs.viaGateway, cs.transport), now);
      var full := FullStateNeeded(msg);
      reply := StatusReply(full);
    }

    method FullStateNeeded(msg: Message) returns (full: bool)
      requires registry.Valid()
      ensures full == NeedsFullState(registry.Agents(), msg)
    {
      if msg.uid.None? {
        return false;
      }
      var agent := registry.Get(msg.uid.value);
      full := agent.Some? && !agent.value.descriptionReported;
    }

    /** payload is the request uid of a well-formed connect message. A malformed one is rejected,
        but still flags the connection. */
    method OnGatewayConnect(cs: ConnState, payload: Option<string>) returns (reply: Reply)
      modifies this, cs
      ensures draining == old(draining) && gatewaysClosed == old(gatewaysClosed)
      ensures gatewaysOpened == old(gatewaysOpened) + (if old(cs.viaGateway) then 0 else 1)
      ensures cs.View() == old(cs.View()).(viaGateway := true)
      ensures reply == if payload.Some? then GatewayReply(true, payload.value) else GatewayReply(false, "")
    {
      if !cs.viaGateway {
        cs.viaGateway := true;
        gatewaysOpened := gatewaysOpened + 1;
      }
      reply := if payload.Some? then GatewayReply(true, payload.value) else GatewayReply(false, "");
    }

    /** order is the order in which the agents of a closed WebSocket were walked. */
    method OnConnectionClose(cs: ConnState) returns (ghost order: seq<Id>)
      requires registry.Valid()
      modifies this, cs, registry
      ensures registry.Valid() && draining == old(draining) && gatewaysOpened == old(gatewaysOpened)
      ensures gatewaysClosed == old(gatewaysClosed) + (if old(cs.viaGateway) then 1 else 0)
      ensures cs.View() == old(cs.View()).(agents := {})
      ensures forall id :: id in order <==> cs.transport == "ws" && id in old(cs.agents)
      ensures registry.View() == AfterDisconnects(registry.cfg, old(registry.View()), order)
    {
      var wasGateway, agents := cs.viaGateway, cs.agents;
      cs.agents := {};
      if wasGateway {
        gatewaysClosed := gatewaysClosed + 1;
      }
      order := [];
      if cs.transport != "ws" {
        return;
      }
      order := DisconnectAll(agents);
    }

    method DisconnectAll(agents: set<Id>) returns (ghost order: seq<Id>)
      requires registry.Valid()
      modifies registry
      ensures registry.Valid() && (forall id :: id in order <==> id in agents)
      ensures registry.View() == AfterDisconnects(registry.cfg, old(registry.View()), order)
    {
      order := [];
      var left := agents;
      while left != {}
        invariant registry.Valid() && left <= agents && (forall id :: id in order <==> id in agents && id !in left)
        invariant registry.View() == AfterDisconnects(registry.cfg, old(registry.View()), order)
      {
        var id :| id in left;
        registry.SetConnected(id, false);
        assert (order + [id])[..|order|] == order;
        order, left := order + [id], left - {id};
      }
    }
  }

  // ----- whole runs -----

  /** Every open connection, the registry's agents and the gateway counters. */
  datatype World = World(agents: map<Id, Agent>, open: map<nat, Conn>, draining: bool, started: nat, ended: nat)

  datatype Action =
    | Connect(c: nat, transport: string)
    | GatewayConnect(c: nat)
    | Status(c: nat, msg: Message, peer: Peer, now: Time)
    | Close(c: nat)
    | Sweep(now: Time)
    | Drain

  const START := World(map[], map[], false, 0, 0)

  /** A connection sends and closes only while it is open, so it closes once. */
  predicate Enabled(w: World, a: Action) {
    match a
    case Connect(c, _) => c !in w.open
    case GatewayConnect(c) => c in w.open
    case Status(c, _, _, _) => c in w.open
    case Close(c) => c in w.open
    case Sweep(_) => true
    case Drain => true
  }

  function NextOpen(w: World, a: Action): map<nat, Conn>
    requires Enabled(w, a)
  {
    match a
    case Connect(c, transport) => if w.draining then w.open else w.open[c := Conn(transport, false, {})]
    case GatewayConnect(c) => w.open[c := w.open[c].(viaGateway := true)]
    case Status(c, msg, _, _) => w.open[c := Tracking(w.open[c], msg)]
    case Close(c) => w.open - {c}
    case _ => w.open
  }

  function NextAgents(cfg: Config, w: World, a: Action): map<Id, Agent>
    requires Enabled(w, a)
  {
    match a
    case Status(c, msg, peer, now) => ApplyOp(cfg, w.agents, Op.Report(msg, Meta(w.open[c], peer), now))
    case Close(c) => Disconnected(w.agents, if w.open[c].transport == "ws" then w.open[c].agents else {})
    case Sweep(now) => ApplyOp(cfg, w.agents, Op.Sweep(now))
    case _ => w.agents
  }

  function NewlyStarted(w: World, a: Action): nat
    requires Enabled(w, a)
  {
    if a.GatewayConnect? && !w.open[a.c].viaGateway then 1 else 0
  }

  function NewlyEnded(w: World, a: Action): nat
    requires Enabled(w, a)
  {
    if a.Close? && w.open[a.c].viaGateway then 1 else 0
  }

  function Next(cfg: Config, w: World, a: Action): World
    requires Enabled(w, a)
  {
    World(NextAgents(cfg, w, a), NextOpen(w, a), w.draining || a.Drain?, w.started + NewlyStarted(w, a), w.ended + NewlyEnded(w, a))
  }

  ghost predicate IsRun(cfg: Config, worlds: seq<World>, actions: seq<Action>) {
    && |worlds| == |actions| + 1 && worlds[0] == START
    && forall i :: 0 <= i < |actions| ==> Enabled(worlds[i], actions[i]) && worlds[i + 1] == Next(cfg, worlds[i], actions[i])
  }

  // ----- gateway counters -----

  ghost function Gateways(open: map<nat, Conn>): set<nat> {
    set c | c in open && open[c].viaGateway
  }

  function Flag(open: map<nat, Conn>, c: nat): nat {
    if c in open && open[c].viaGateway then 1 else 0
  }

  lemma GatewaysDrop(open: map<nat, Conn>, c: nat)
    ensures |Gateways(open - {c})| == |Gateways(open)| - Flag(open, c)
  {
    assert Gateways(open - {c}) == Gateways(open) - {c};
  }

  lemma GatewaysPut(open: map<nat, Conn>, c: nat, conn: Conn)
    ensures |Gateways(open[c := conn])| == |Gateways(open)| - Flag(open, c) + if conn.viaGateway then 1 else 0
  {
    GatewaysDrop(open, c);
    assert Gateways(open[c := conn]) == if conn.viaGateway then Gateways(open - {c}) + {c} else Gateways(open - {c});
  }

  lemma OpenCountsGateways(w: World, a: Action)
    requires Enabled(w, a)
    ensures |Gateways(NextOpen(w, a))| == |Gateways(w.open)| + NewlyStarted(w, a) - NewlyEnded(w, a)
  {
    match a
    case Connect(c, transport) => GatewaysPut(w.open, c, Conn(transport, false, {}));
    case GatewayConnect(c) => GatewaysPut(w.open, c, w.open[c].(viaGateway := true));
    case Status(c, msg, _, _) => GatewaysPut(w.open, c, Tracking(w.open[c], msg));
    case Close(c) => GatewaysDrop(w.open, c);
    case Sweep(_) =>
    case Drain =>
  }

  lemma StepCountsGateways(cfg: Config, w: World, a: Action)
    requires Enabled(w, a) && w.started - w.ended == |Gateways(w.open)|
    ensures var w' := Next(cfg, w, a); w'.started - w'.ended == |Gateways(w'.open)|
  {
    OpenCountsGateways(w, a);
  }

  /** In every run, gateway connections started minus ended is the number of open connections
      flagged as gateways. */
  lemma {:induction false} GatewaysAreCounted(cfg: Config, worlds: seq<World>, actions: seq<Action>, n: nat)
    requires IsRun(cfg, worlds, actions) && n < |worlds|
    ensures worlds[n].started - worlds[n].ended == |Gateways(worlds[n].open)|
  {
    if n > 0 {
      GatewaysAreCounted(cfg, worlds, actions, n - 1);
      StepCountsGateways(cfg, worlds[n - 1], actions[n - 1]);
    } else {
      assert Gateways(START.open) == {};
    }
  }

  // ----- asking for full state -----

  predicate Describes(a: Action, id: Id) {
    a.Status? && a.msg.uid == Some(id) && a.msg.description.Some?
  }

  /** Before instant n the agent sent a description, and it has stayed registered since. */
  ghost predicate Described(worlds: seq<World>, actions: seq<Action>, n: nat, id: Id)
    requires n <= |actions| < |worlds|
  {
    exists i :: 0 <= i < n && Describes(actions[i], id) && Registered(worlds, i + 1, n, id)
  }

  ghost predicate Registered(worlds: seq<World>, i: nat, n: nat, id: Id)
    requires n < |worlds|
  {
    forall j :: i <= j <= n ==> id in worlds[j].agents
  }

  /** How one step moves a registered agent's description flag. */
  lemma StepMovesFlag(cfg: Config, w: World, a: Action, id: Id)
    requires Enabled(w, a) && id in Next(cfg, w, a).agents
    ensures Next(cfg, w, a).agents[id].descriptionReported
         == (Describes(a, id) || (id in w.agents && w.agents[id].descriptionReported))
  {
    match a
    case Connect(_, _) =>
    case GatewayConnect(_) =>
    case Close(_) =>
    case Sweep(_) =>
    case Drain =>
    case Status(c, msg, peer, now) =>
      if msg.uid == Some(id) {
        FoldMovesFlag(cfg, Known(w.agents, id, now), msg, Meta(w.open[c], peer), now);
      }
  }

  lemma FoldMovesFlag(cfg: Config, a: Agent, msg: Message, meta: ConnMeta, now: Time)
    ensures Fold(cfg, a, msg, meta, now).descriptionReported == (msg.description.Some? || a.descriptionReported)
  {
    var a1 := Touch(a, msg, meta, now);
    var a2 := if msg.description.Some? then TakeDescription(cfg, a1, msg.description.value) else a1;
    assert a2.descriptionReported == (msg.description.Some? || a.descriptionReported);
    ReportsKeepFlag(a2, msg);
  }

  lemma ReportsKeepFlag(a: Agent, msg: Message)
    ensures FoldReports(a, msg).descriptionReported == a.descriptionReported
  {
    var a1 := WithHealth(a, msg.health);
    assert a1.descriptionReported == a.descriptionReported;
    var a2 := WithPackages(a1, msg.packages);
    assert a2.descriptionReported == a.descriptionReported;
  }

  lemma {:induction false} FlagMeansDescribed(cfg: Config, worlds: seq<World>, actions: seq<Action>, n: nat, id: Id)
    requires IsRun(cfg, worlds, actions) && n <= |actions| && id in worlds[n].agents
    ensures worlds[n].agents[id].descriptionReported <==> Described(worlds, actions, n, id)
  {
    if n > 0 {
      StepMovesFlag(cfg, worlds[n - 1], actions[n - 1], id);
      if id in worlds[n - 1].agents {
        FlagMeansDescribed(cfg, worlds, actions, n - 1, id);
      }
      DescribedStep(worlds, actions, n, id);
    }
  }

  lemma DescribedStep(worlds: seq<World>, actions: seq<Action>, n: nat, id: Id)
    requires 0 < n <= |actions| < |worlds| && id in worlds[n].agents
    ensures Described(worlds, actions, n, id)
       <==> Describes(actions[n - 1], id) || (id in worlds[n - 1].agents && Described(worlds, actions, n - 1, id))
  {
  }

  /** A status message with a valid uid is answered with a request for full state exactly when the
      agent has sent no description since it was last registered. */
  lemma FullStateIsAskedExactly(cfg: Config, worlds: seq<World>, actions: seq<Action>, n: nat)
    requires IsRun(cfg, worlds, actions) && n < |actions| && actions[n].Status? && actions[n].msg.uid.Some?
    ensures NeedsFullState(worlds[n + 1].agents, actions[n].msg)
       <==> !Described(worlds, actions, n + 1, actions[n].msg.uid.value)
  {
    FlagMeansDescribed(cfg, worlds, actions, n + 1, actions[n].msg.uid.value);
  }

  // ----- who a close disconnects -----

  predicate Carries(a: Action, c: nat, id: Id) {
    a.Status? && a.c == c && a.msg.uid == Some(id)
  }

  /** Before instant n the agent reported over c, and c has stayed open since. */
  ghost predicate ReportedOver(worlds: seq<World>, actions: seq<Action>, n: nat, c: nat, id: Id)
    requires n <= |actions| < |worlds|
  {
    exists i :: 0 <= i < n && Carries(actions[i], c, id) && StaysOpen(worlds, i + 1, n, c)
  }

  ghost predicate StaysOpen(worlds: seq<World>, i: nat, n: nat, c: nat)
    requires n < |worlds|
  {
    forall j :: i <= j <= n ==> c in worlds[j].open
  }

  lemma StepTracks(cfg: Config, w: World, a: Action, c: nat, id: Id)
    requires Enabled(w, a) && c in Next(cfg, w, a).open
    ensures id in Next(cfg, w, a).open[c].agents <==> Carries(a, c, id) || (c in w.open && id in w.open[c].agents)
  {
  }

  lemma ReportedOverStep(worlds: seq<World>, actions: seq<Action>, n: nat, c: nat, id: Id)
    requires 0 < n <= |actions| < |worlds| && c in worlds[n].open
    ensures ReportedOver(worlds, actions, n, c, id)
       <==> Carries(actions[n - 1], c, id) || (c in worlds[n - 1].open && ReportedOver(worlds, actions, n - 1, c, id))
  {
  }

  lemma {:induction false} TracksItsReporters(cfg: Config, worlds: seq<World>, actions: seq<Action>, n: nat, c: nat, id: Id)
    requires IsRun(cfg, worlds, actions) && n <= |actions| && c in worlds[n].open
    ensures id in worlds[n].open[c].agents <==> ReportedOver(worlds, actions, n, c, id)
  {
    if n > 0 {
      StepTracks(cfg, worlds[n - 1], actions[n - 1], c, id);
      if c in worlds[n - 1].open {
        TracksItsReporters(cfg, worlds, actions, n - 1, c, id);
      }
      ReportedOverStep(worlds, actions, n, c, id);
    }
  }

  /** A close changes an agent exactly when it is registered and connected, the transport is
      WebSocket, and it reported over that connection; all it changes is connected. This holds
      also of an agent that has meanwhile reported over another connection. */
  lemma CloseDisconnectsItsReporters(cfg: Config, worlds: seq<World>, actions: seq<Action>, n: nat, id: Id)
    requires IsRun(cfg, worlds, actions) && n < |actions| && actions[n].Close?
    ensures worlds[n + 1].agents.Keys == worlds[n].agents.Keys
    ensures id in worlds[n].agents ==>
              var was, c := worlds[n].agents[id], actions[n].c;
              var cut := worlds[n].open[c].transport == "ws" && ReportedOver(worlds, actions, n, c, id);
              worlds[n + 1].agents[id] == was.(connected := was.connected && !cut)
  {
    TracksItsReporters(cfg, worlds, actions, n, actions[n].c, id);
  }

  function Hello(id: Id): Message {
    Message(Some(id), 0, 0, None, None, map[], map[])
  }

  /** The agent has reported over a first WebSocket and then over a second; both are open. */
  lemma Moved(cfg: Config, id: Id, peer: Peer) returns (worlds: seq<World>, actions: seq<Action>)
    ensures IsRun(cfg, worlds, actions) && |actions| == 4
    ensures Carries(actions[1], 1, id) && StaysOpen(worlds, 2, 4, 1)
    ensures Carries(actions[3], 2, id) && worlds[4].open.Keys == {1, 2}
    ensures worlds[4].open[1].transport == worlds[4].open[2].transport == "ws" && id in worlds[4].agents
  {
    actions := [Connect(1, "ws"), Status(1, Hello(id), peer, 0), Connect(2, "ws"), Status(2, Hello(id), peer, 1)];
    var w1 := Next(cfg, START, actions[0]);
    var w2 := Next(cfg, w1, actions[1]);
    var w3 := Next(cfg, w2, actions[2]);
    var w4 := Next(cfg, w3, actions[3]);
    worlds := [START, w1, w2, w3, w4];
    assert w4.open.Keys == {1, 2};
  }

  lemma AppendClose(cfg: Config, worlds: seq<World>, actions: seq<Action>, c: nat)
    requires IsRun(cfg, worlds, actions) && c in worlds[|actions|].open
    ensures IsRun(cfg, worlds + [Next(cfg, worlds[|actions|], Close(c))], actions + [Close(c)])
  {
  }

  /** An agent that has moved to a second WebSocket is marked disconnected when the first one closes late,
      although the second is open and the agent reported over it last. */
  lemma LateCloseDisconnects(cfg: Config, id: Id, peer: Peer) returns (worlds: seq<World>, actions: seq<Action>)
    ensures IsRun(cfg, worlds, actions) && |actions| == 5 && actions[4] == Close(1) && Carries(actions[3], 2, id)
    ensures var w := worlds[5];
            2 in w.open && w.open[2].transport == "ws" && id in w.agents && !w.agents[id].connected
  {
    var before, first := Moved(cfg, id, peer);
    AppendClose(cfg, before, first, 1);
    worlds, actions := before + [Next(cfg, before[4], Close(1))], first + [Close(1)];
    assert actions[1] == first[1] && actions[3] == first[3];
    assert Carries(actions[1], 1, id) && StaysOpen(worlds, 2, 4, 1);
    CloseDisconnectsItsReporters(cfg, worlds, actions, 4, id);
  }
}
