/** The fleet's data model and the meaning of one registry operation.

    The functions of this module describe the registry as one flat map from
    instance uid to agent. Registry.dfy proves that the sharded registry
    implements them; FleetRuns.dfy proves what they keep over whole runs. */
module Fleet {

  type Id = string

  /** Nanoseconds on the clock all replicas share. */
  type Time = int

  datatype Option<+T> = None | Some(value: T)

  datatype ConnMeta = ConnMeta(remoteAddr: string, tlsSubject: string, viaGateway: bool, transport: string)

  datatype Package = Package(name: string, agentHasVersion: string, serverOfferedVersion: string,
                             status: string, errorMessage: string)

  /** A health report; a time of 0 means the sender left it unset. */
  datatype Health = Health(healthy: bool, lastError: string, status: string, startTime: nat, statusTime: nat)

  datatype Description = Description(identifying: map<string, string>, nonIdentifying: map<string, string>)

  /** An AgentToServer message. uid is None when the raw bytes do not render as
      a UUID; capabilities 0, an absent option and an empty map all mean "not
      in this message". */
  datatype Message = Message(uid: Option<Id>, sequenceNum: nat, capabilities: nat,
                             description: Option<Description>, health: Option<Health>,
                             packages: map<string, Package>, config: map<string, string>)

  datatype Agent = Agent(
    instanceUID: Id,
    sequenceNum: nat,
    identifying: map<string, string>,
    nonIdentifying: map<string, string>,
    capabilities: nat,
    healthy: bool,
    healthError: string,
    healthStatus: string,
    healthStartTime: Option<nat>,
    healthStatusTime: Option<nat>,
    healthReported: bool,
    descriptionReported: bool,
    effectiveConfig: map<string, string>,
    packages: map<string, Package>,
    conn: ConnMeta,
    connected: bool,
    firstSeen: Time,
    lastSeen: Time,
    missingAttributes: seq<string>,
    reservedConflicts: seq<string>,
    evictedAt: Option<Time>,
    sessionUpdatedAt: Option<Time>)

  /** Config loading rejects settings that are not positive. */
  datatype RawConfig = RawConfig(heartbeatInterval: int, staleMissedHeartbeats: int, requiredAttributes: seq<string>)
  type Config = c: RawConfig | c.heartbeatInterval > 0 && c.staleMissedHeartbeats > 0 witness RawConfig(1, 1, [])

  const RESERVED_ATTRIBUTE_KEYS: seq<string> := ["healthy", "connected", "via_gateway", "supervisor_managed"]

  datatype Event =
    | AgentConnected(id: Id)
    | AgentDisconnected(id: Id)
    | AgentEvicted(id: Id)
    | ReportReceived(id: Id, kind: string)
    | MissingAttribute(id: Id, key: string)
    | ReservedAttributeConflict(id: Id, key: string)

  function DisconnectThreshold(cfg: Config): Time {
    cfg.heartbeatInterval + cfg.heartbeatInterval / 2
  }

  function EvictAfter(cfg: Config): Time {
    cfg.heartbeatInterval * cfg.staleMissedHeartbeats
  }

  function Fresh(id: Id, now: Time): Agent {
    Agent(id, 0, map[], map[], 0, false, "", "", None, None, false, false, map[], map[],
          ConnMeta("", "", false, ""), false, now, 0, [], [], None, None)
  }

  predicate Describes(a: Agent, key: string) {
    key in a.identifying || key in a.nonIdentifying
  }

  /** The required keys an agent does not describe, in configuration order. */
  function MissingKeys(a: Agent, required: seq<string>): seq<string> {
    if required == [] then []
    else
      var rest := MissingKeys(a, required[..|required| - 1]);
      if Describes(a, required[|required| - 1]) then rest else rest + [required[|required| - 1]]
  }

  /** The reserved keys an agent describes, in declaration order. */
  function ConflictKeys(a: Agent, reserved: seq<string>): seq<string> {
    if reserved == [] then []
    else
      var rest := ConflictKeys(a, reserved[..|reserved| - 1]);
      if Describes(a, reserved[|reserved| - 1]) then rest + [reserved[|reserved| - 1]] else rest
  }

  /** Of a list of keys, the missing ones are those the agent does not describe, the conflicting ones those it does. */
  lemma {:induction false} KeysExactly(a: Agent, keys: seq<string>, key: string)
    ensures key in MissingKeys(a, keys) <==> key in keys && !Describes(a, key)
    ensures key in ConflictKeys(a, keys) <==> key in keys && Describes(a, key)
  {
    if keys != [] {
      assert keys == keys[..|keys| - 1] + [keys[|keys| - 1]];
      KeysExactly(a, keys[..|keys| - 1], key);
    }
  }

  /** Both come in the order of the list. */
  lemma {:induction false} KeysInOrder(a: Agent, xs: seq<string>, ys: seq<string>)
    ensures MissingKeys(a, xs + ys) == MissingKeys(a, xs) + MissingKeys(a, ys)
    ensures ConflictKeys(a, xs + ys) == ConflictKeys(a, xs) + ConflictKeys(a, ys)
  {
    if ys == [] {
      assert xs + ys == xs;
    } else {
      KeysInOrder(a, xs, ys[..|ys| - 1]);
      assert (xs + ys)[..|xs + ys| - 1] == xs + ys[..|ys| - 1];
    }
  }

  lemma {:induction false} KeysDependOnAttributes(a: Agent, b: Agent, keys: seq<string>)
    requires a.identifying == b.identifying && a.nonIdentifying == b.nonIdentifying
    ensures ConflictKeys(a, keys) == ConflictKeys(b, keys)
    ensures MissingKeys(a, keys) == MissingKeys(b, keys)
  {
    if keys != [] {
      KeysDependOnAttributes(a, b, keys[..|keys| - 1]);
    }
  }

  // ----- folding one message -----

  function Touch(a: Agent, msg: Message, meta: ConnMeta, now: Time): Agent {
    a.(lastSeen := now, connected := true, conn := meta, sequenceNum := msg.sequenceNum,
       capabilities := if msg.capabilities != 0 then msg.capabilities else a.capabilities)
  }

  function WithAttributes(a: Agent, d: Description): Agent {
    a.(descriptionReported := true, identifying := d.identifying, nonIdentifying := d.nonIdentifying)
  }

  function TakeDescription(cfg: Config, a: Agent, d: Description): Agent {
    var b := WithAttributes(a, d);
    b.(missingAttributes := MissingKeys(b, cfg.requiredAttributes),
       reservedConflicts := ConflictKeys(b, RESERVED_ATTRIBUTE_KEYS))
  }

  function TakeHealth(a: Agent, h: Health): Agent {
    a.(healthReported := true, healthy := h.healthy, healthError := h.lastError, healthStatus := h.status,
       healthStartTime := if h.startTime != 0 then Some(h.startTime) else a.healthStartTime,
       healthStatusTime := if h.statusTime != 0 then Some(h.statusTime) else a.healthStatusTime)
  }

  function WithHealth(a: Agent, health: Option<Health>): Agent {
    if health.Some? then TakeHealth(a, health.value) else a
  }

  function WithPackages(a: Agent, packages: map<string, Package>): Agent {
    if packages != map[] then a.(packages := packages) else a
  }

  function WithConfig(a: Agent, config: map<string, string>): Agent {
    if config != map[] then a.(effectiveConfig := config) else a
  }

  /** The health, package and config parts of a message. */
  function FoldReports(a: Agent, msg: Message): Agent {
    WithConfig(WithPackages(WithHealth(a, msg.health), msg.packages), msg.config)
  }

  /** What Report makes of one agent: fields absent from the message keep their value. */
  function Fold(cfg: Config, a: Agent, msg: Message, meta: ConnMeta, now: Time): Agent {
    var a1 := Touch(a, msg, meta, now);
    var a2 := if msg.description.Some? then TakeDescription(cfg, a1, msg.description.value) else a1;
    FoldReports(a2, msg)
  }

  /** Two views of one agent that differ only in what it reports about itself. */
  predicate SameSession(a: Agent, b: Agent) {
    && a.instanceUID == b.instanceUID && a.firstSeen == b.firstSeen && a.lastSeen == b.lastSeen
    && a.connected == b.connected && a.conn == b.conn && a.sequenceNum == b.sequenceNum
    && a.capabilities == b.capabilities
  }

  lemma FoldReportsKeepsSession(a: Agent, msg: Message)
    ensures SameSession(FoldReports(a, msg), a)
  {
    var a1 := if msg.health.Some? then TakeHealth(a, msg.health.value) else a;
    assert SameSession(a1, a);
    var a2 := if msg.packages != map[] then a1.(packages := msg.packages) else a1;
    assert SameSession(a2, a);
  }

  /** A report checks the agent in and never renames it or moves its first-seen time. */
  lemma FoldChecksIn(cfg: Config, a: Agent, msg: Message, meta: ConnMeta, now: Time)
    ensures SameSession(Fold(cfg, a, msg, meta, now), Touch(a, msg, meta, now))
  {
    var a1 := Touch(a, msg, meta, now);
    var a2 := if msg.description.Some? then TakeDescription(cfg, a1, msg.description.value) else a1;
    assert SameSession(a2, a1);
    FoldReportsKeepsSession(a2, msg);
  }

  function Known(agents: map<Id, Agent>, id: Id, now: Time): Agent {
    if id in agents then agents[id] else Fresh(id, now)
  }

  // ----- sweeping one agent -----

  predicate Lapses(cfg: Config, a: Agent, now: Time) {
    a.connected && now - a.lastSeen > DisconnectThreshold(cfg)
  }

  predicate Evicts(cfg: Config, a: Agent, now: Time) {
    now - a.lastSeen > EvictAfter(cfg)
  }

  function Lapse(cfg: Config, a: Agent, now: Time): Agent {
    if Lapses(cfg, a, now) then a.(connected := false) else a
  }

  // ----- registry operations over the flat map -----

  datatype Op =
    | Report(msg: Message, meta: ConnMeta, now: Time)
    | SetConnected(id: Id, connected: bool)
    | Sweep(now: Time)

  function ApplyOp(cfg: Config, agents: map<Id, Agent>, op: Op): map<Id, Agent> {
    match op
    case Report(msg, meta, now) =>
      if msg.uid.None? then agents
      else agents[msg.uid.value := Fold(cfg, Known(agents, msg.uid.value, now), msg, meta, now)]
    case SetConnected(id, connected) =>
      if id in agents then agents[id := agents[id].(connected := connected)] else agents
    case Sweep(now) =>
      map id | id in agents && !Evicts(cfg, agents[id], now) :: Lapse(cfg, agents[id], now)
  }

  // ----- events -----

  datatype KeyKind = Missing | Reserved

  function KeyEvent(kind: KeyKind, id: Id, key: string): Event {
    match kind
    case Missing => MissingAttribute(id, key)
    case Reserved => ReservedAttributeConflict(id, key)
  }

  function KeyEvents(kind: KeyKind, id: Id, keys: seq<string>): seq<Event> {
    if keys == [] then [] else KeyEvents(kind, id, keys[..|keys| - 1]) + [KeyEvent(kind, id, keys[|keys| - 1])]
  }

  /** Attribute events fire only when a non-empty key list changed. */
  function ChangeEvents(kind: KeyKind, id: Id, before: seq<string>, after: seq<string>): seq<Event> {
    if after != [] && before != after then KeyEvents(kind, id, after) else []
  }

  function DescriptionEvents(cfg: Config, a: Agent, d: Description): seq<Event> {
    var b := TakeDescription(cfg, a, d);
    [ReportReceived(a.instanceUID, "status")]
    + ChangeEvents(Missing, a.instanceUID, a.missingAttributes, b.missingAttributes)
    + ChangeEvents(Reserved, a.instanceUID, a.reservedConflicts, b.reservedConflicts)
  }

  function ReportsEvents(id: Id, msg: Message): seq<Event> {
    (if msg.health.Some? then [ReportReceived(id, "health")] else [])
    + (if msg.packages != map[] then [ReportReceived(id, "package_statuses")] else [])
    + (if msg.config != map[] then [ReportReceived(id, "effective_config")] else [])
  }

  function ConnectEvents(a: Agent): seq<Event> {
    if a.connected then [] else [AgentConnected(a.instanceUID)]
  }

  function ReportEvents(cfg: Config, a: Agent, msg: Message): seq<Event> {
    ConnectEvents(a)
    + (if msg.description.Some? then DescriptionEvents(cfg, a, msg.description.value) else [])
    + ReportsEvents(a.instanceUID, msg)
  }

  function SetConnectedEvents(a: Agent, connected: bool): seq<Event> {
    if a.connected && !connected then [AgentDisconnected(a.instanceUID)]
    else if !a.connected && connected then [AgentConnected(a.instanceUID)]
    else []
  }

  function SweepEventsOf(cfg: Config, agents: map<Id, Agent>, id: Id, now: Time): seq<Event> {
    if id !in agents then []
    else
      (if Lapses(cfg, agents[id], now) then [AgentDisconnected(id)] else [])
      + (if Evicts(cfg, agents[id], now) then [AgentEvicted(id)] else [])
  }

  /** The events about one agent, in the order they fired. */
  function EventsOf(log: seq<Event>, id: Id): seq<Event> {
    if log == [] then []
    else
      var rest := EventsOf(log[..|log| - 1], id);
      if log[|log| - 1].id == id then rest + [log[|log| - 1]] else rest
  }

  /** What an observer of the registry sees: the agents and the event log. */
  datatype State = State(agents: map<Id, Agent>, log: seq<Event>)

  const EMPTY := State(map[], [])

  /** One registry operation. Sweep walks maps, so only the order of each
      agent's own events is fixed. */
  ghost predicate Step(cfg: Config, s: State, op: Op, s': State) {
    && s'.agents == ApplyOp(cfg, s.agents, op)
    && match op
       case Report(msg, meta, now) =>
         s'.log == s.log + (if msg.uid.None? then [] else ReportEvents(cfg, Known(s.agents, msg.uid.value, now), msg))
       case SetConnected(id, connected) =>
         s'.log == s.log + (if id in s.agents then SetConnectedEvents(s.agents[id], connected) else [])
       case Sweep(now) =>
         forall id :: EventsOf(s'.log, id) == EventsOf(s.log, id) + SweepEventsOf(cfg, s.agents, id, now)
  }

  /** Every agent is filed under its own instance uid. */
  predicate Keyed(agents: map<Id, Agent>) {
    forall id :: id in agents ==> agents[id].instanceUID == id
  }

  function Uids(list: seq<Agent>): set<Id> {
    if list == [] then {} else Uids(list[..|list| - 1]) + {list[|list| - 1].instanceUID}
  }

  lemma {:induction false} UidsHave(list: seq<Agent>, id: Id)
    ensures id in Uids(list) <==> exists i :: 0 <= i < |list| && list[i].instanceUID == id
  {
    if list != [] {
      var n := |list| - 1;
      UidsHave(list[..n], id);
      if i :| 0 <= i < |list| && list[i].instanceUID == id {
        if i < n { assert list[..n][i].instanceUID == id; }
      }
      if id in Uids(list[..n]) {
        var i :| 0 <= i < n && list[..n][i].instanceUID == id;
        assert list[i].instanceUID == id;
      }
    }
  }

  predicate DistinctUids(list: seq<Agent>) {
    forall i, j :: 0 <= i < j < |list| ==> list[i].instanceUID != list[j].instanceUID
  }

  /** list holds every agent of the map exactly once, in any order. */
  ghost predicate Lists(list: seq<Agent>, agents: map<Id, Agent>) {
    && Uids(list) == agents.Keys
    && DistinctUids(list)
    && (forall i :: 0 <= i < |list| ==> list[i].instanceUID in agents && agents[list[i].instanceUID] == list[i])
  }

  lemma {:induction false} EventsOfConcat(a: seq<Event>, b: seq<Event>, id: Id)
    ensures EventsOf(a + b, id) == EventsOf(a, id) + EventsOf(b, id)
  {
    if b == [] {
      assert a + b == a;
    } else {
      EventsOfConcat(a, b[..|b| - 1], id);
      assert (a + b)[..|a + b| - 1] == a + b[..|b| - 1];
    }
  }
}
