/** What every run of registry operations keeps: connect and disconnect events
    balance, and sweeps leave nothing over-age. */
module FleetRuns {
  import opened Fleet

  /** Any sequence of operations from an empty registry, with the states it passes through. */
  ghost predicate IsRun(cfg: Config, states: seq<State>, ops: seq<Op>) {
    && |states| == |ops| + 1
    && states[0] == EMPTY
    && (forall i :: 0 <= i < |ops| ==> Step(cfg, states[i], ops[i], states[i + 1]))
  }

  // ----- event conservation -----

  function Weight(e: Event, id: Id): int {
    if e == AgentConnected(id) then 1 else if e == AgentDisconnected(id) then -1 else 0
  }

  /** Connects minus disconnects of one agent. */
  function Net(log: seq<Event>, id: Id): int {
    if log == [] then 0 else Net(log[..|log| - 1], id) + Weight(log[|log| - 1], id)
  }

  lemma {:induction false} NetConcat(a: seq<Event>, b: seq<Event>, id: Id)
    ensures Net(a + b, id) == Net(a, id) + Net(b, id)
  {
    if b == [] {
      assert a + b == a;
    } else {
      NetConcat(a, b[..|b| - 1], id);
      assert (a + b)[..|a + b| - 1] == a + b[..|b| - 1];
    }
  }

  lemma {:induction false} NetOfOwnEvents(log: seq<Event>, id: Id)
    ensures Net(EventsOf(log, id), id) == Net(log, id)
  {
    if log != [] {
      var n := |log| - 1;
      NetOfOwnEvents(log[..n], id);
      var rest := EventsOf(log[..n], id);
      assert (rest + [log[n]])[..|rest|] == rest;
    }
  }

  lemma {:induction false} NetOfKeyEvents(kind: KeyKind, uid: Id, keys: seq<string>, id: Id)
    ensures Net(KeyEvents(kind, uid, keys), id) == 0
  {
    if keys != [] {
      var init := keys[..|keys| - 1];
      NetOfKeyEvents(kind, uid, init, id);
      NetConcat(KeyEvents(kind, uid, init), [KeyEvent(kind, uid, keys[|keys| - 1])], id);
      NetOfOne(KeyEvent(kind, uid, keys[|keys| - 1]), id);
    }
  }

  lemma NetOfOne(e: Event, id: Id)
    ensures Net([e], id) == Weight(e, id)
  {
  }

  lemma NetOfDescription(cfg: Config, a: Agent, d: Description, id: Id)
    ensures Net(DescriptionEvents(cfg, a, d), id) == 0
  {
    var b := TakeDescription(cfg, a, d);
    var first := [ReportReceived(a.instanceUID, "status")];
    var missing := ChangeEvents(Missing, a.instanceUID, a.missingAttributes, b.missingAttributes);
    var reserved := ChangeEvents(Reserved, a.instanceUID, a.reservedConflicts, b.reservedConflicts);
    NetOfOne(first[0], id);
    NetOfKeyEvents(Missing, a.instanceUID, b.missingAttributes, id);
    NetOfKeyEvents(Reserved, a.instanceUID, b.reservedConflicts, id);
    NetConcat(first, missing, id);
    NetConcat(first + missing, reserved, id);
  }

  lemma NetOfReports(uid: Id, msg: Message, id: Id)
    ensures Net(ReportsEvents(uid, msg), id) == 0
  {
    var health: seq<Event> := if msg.health.Some? then [ReportReceived(uid, "health")] else [];
    var packages: seq<Event> := if msg.packages != map[] then [ReportReceived(uid, "package_statuses")] else [];
    var config: seq<Event> := if msg.config != map[] then [ReportReceived(uid, "effective_config")] else [];
    NetOfOne(ReportReceived(uid, "health"), id);
    NetOfOne(ReportReceived(uid, "package_statuses"), id);
    NetOfOne(ReportReceived(uid, "effective_config"), id);
    NetConcat(health, packages, id);
    NetConcat(health + packages, config, id);
  }

  lemma NetOfReport(cfg: Config, a: Agent, msg: Message, id: Id)
    ensures Net(ReportEvents(cfg, a, msg), id) == if !a.connected && a.instanceUID == id then 1 else 0
  {
    var described := if msg.description.Some? then DescriptionEvents(cfg, a, msg.description.value) else [];
    if msg.description.Some? {
      NetOfDescription(cfg, a, msg.description.value, id);
    }
    NetOfOne(AgentConnected(a.instanceUID), id);
    NetOfReports(a.instanceUID, msg, id);
    NetConcat(ConnectEvents(a), described, id);
    NetConcat(ConnectEvents(a) + described, ReportsEvents(a.instanceUID, msg), id);
  }

  lemma NetOfSweep(cfg: Config, agents: map<Id, Agent>, id: Id, now: Time)
    ensures Net(SweepEventsOf(cfg, agents, id, now), id) == if id in agents && Lapses(cfg, agents[id], now) then -1 else 0
  {
    NetOfOne(AgentDisconnected(id), id);
    NetOfOne(AgentEvicted(id), id);
    NetConcat([AgentDisconnected(id)], [AgentEvicted(id)], id);
    assert [AgentDisconnected(id)] + [] == [AgentDisconnected(id)] && [] + [AgentEvicted(id)] == [AgentEvicted(id)];
  }

  ghost predicate IsUp(s: State, id: Id) {
    id in s.agents && s.agents[id].connected
  }

  /** The events about id add up to its being registered and connected. */
  ghost predicate Conserved(s: State, id: Id) {
    Net(s.log, id) == if IsUp(s, id) then 1 else 0
  }

  lemma ReportConserves(cfg: Config, s: State, op: Op, s': State, id: Id)
    requires op.Report? && Step(cfg, s, op, s') && Keyed(s.agents) && Conserved(s, id)
    ensures Conserved(s', id)
  {
    if op.msg.uid.Some? {
      var known := Known(s.agents, op.msg.uid.value, op.now);
      NetOfReport(cfg, known, op.msg, id);
      NetConcat(s.log, ReportEvents(cfg, known, op.msg), id);
      FoldChecksIn(cfg, known, op.msg, op.meta, op.now);
    } else {
      assert s.log + [] == s.log;
    }
  }

  lemma SetConnectedConserves(cfg: Config, s: State, op: Op, s': State, id: Id)
    requires op.SetConnected? && Step(cfg, s, op, s') && Keyed(s.agents) && Conserved(s, id)
    ensures Conserved(s', id)
  {
    if op.id in s.agents {
      NetOfOne(AgentConnected(op.id), id);
      NetOfOne(AgentDisconnected(op.id), id);
      NetConcat(s.log, SetConnectedEvents(s.agents[op.id], op.connected), id);
    } else {
      assert s.log + [] == s.log;
    }
  }

  lemma SweepNet(cfg: Config, s: State, op: Op, s': State, id: Id)
    requires op.Sweep? && Step(cfg, s, op, s')
    ensures Net(s'.log, id) == Net(s.log, id) + if id in s.agents && Lapses(cfg, s.agents[id], op.now) then -1 else 0
  {
    var fired := SweepEventsOf(cfg, s.agents, id, op.now);
    NetOfOwnEvents(s'.log, id);
    NetOfOwnEvents(s.log, id);
    assert EventsOf(s'.log, id) == EventsOf(s.log, id) + fired;
    NetConcat(EventsOf(s.log, id), fired, id);
    NetOfSweep(cfg, s.agents, id, op.now);
  }

  lemma StepConserves(cfg: Config, s: State, op: Op, s': State, id: Id)
    requires EvictAfter(cfg) >= DisconnectThreshold(cfg)
    requires Step(cfg, s, op, s') && Keyed(s.agents) && Conserved(s, id)
    ensures Conserved(s', id)
  {
    match op
    case Report(_, _, _) => ReportConserves(cfg, s, op, s', id);
    case SetConnected(_, _) => SetConnectedConserves(cfg, s, op, s', id);
    case Sweep(now) => SweepNet(cfg, s, op, s', id);
  }

  lemma StepKeeps(cfg: Config, agents: map<Id, Agent>, op: Op)
    requires Keyed(agents)
    ensures Keyed(ApplyOp(cfg, agents, op))
  {
    match op
    case Report(msg, meta, now) =>
      if msg.uid.Some? {
        FoldChecksIn(cfg, Known(agents, msg.uid.value, now), msg, meta, now);
      }
    case SetConnected(_, _) =>
    case Sweep(now) =>
      forall id | id in ApplyOp(cfg, agents, op) ensures ApplyOp(cfg, agents, op)[id].instanceUID == id {
        assert ApplyOp(cfg, agents, op)[id] == Lapse(cfg, agents[id], now);
      }
  }

  lemma {:induction false} RunConserves(cfg: Config, states: seq<State>, ops: seq<Op>, n: nat, id: Id)
    requires EvictAfter(cfg) >= DisconnectThreshold(cfg)
    requires IsRun(cfg, states, ops) && n < |states|
    ensures Keyed(states[n].agents) && Conserved(states[n], id)
  {
    if n > 0 {
      RunConserves(cfg, states, ops, n - 1, id);
      assert Step(cfg, states[n - 1], ops[n - 1], states[n - 1 + 1]);
      StepKeeps(cfg, states[n - 1].agents, ops[n - 1]);
      StepConserves(cfg, states[n - 1], ops[n - 1], states[n], id);
    }
  }

  ghost predicate AlwaysConserved(cfg: Config) {
    forall states, ops, n, id :: IsRun(cfg, states, ops) && 0 <= n < |states| ==> Conserved(states[n], id)
  }

  /** A sweep of a fleet of one that is past eviction but not past the disconnect threshold. */
  lemma OneEvicted(cfg: Config, a: Agent, log: seq<Event>, now: Time, id: Id)
    requires Evicts(cfg, a, now) && !Lapses(cfg, a, now)
    ensures Step(cfg, State(map[id := a], log), Op.Sweep(now), State(map[], log + [AgentEvicted(id)]))
  {
  }

  /** An agent reports once and is then swept at an age past eviction but not past
      the disconnect threshold: it leaves connected, and no disconnect fires. */
  lemma EvictedWhileConnected(cfg: Config) returns (states: seq<State>, ops: seq<Op>, id: Id)
    requires EvictAfter(cfg) < DisconnectThreshold(cfg)
    ensures IsRun(cfg, states, ops) && |states| == 3 && !Conserved(states[2], id)
  {
    id := "a";
    var msg, meta := Message(Some(id), 1, 0, None, None, map[], map[]), ConnMeta("", "", false, "ws");
    var report, sweep := Op.Report(msg, meta, 0), Op.Sweep(EvictAfter(cfg) + 1);
    var a, log := Fold(cfg, Fresh(id, 0), msg, meta, 0), ReportEvents(cfg, Fresh(id, 0), msg);
    FoldChecksIn(cfg, Fresh(id, 0), msg, meta, 0);
    assert EMPTY.log + log == log;
    assert Step(cfg, EMPTY, report, State(map[id := a], log));
    OneEvicted(cfg, a, log, sweep.now, id);
    states := [EMPTY, State(map[id := a], log), State(map[], log + [AgentEvicted(id)])];
    ops := [report, sweep];
    NetOfReport(cfg, Fresh(id, 0), msg, id);
    NetConcat(log, [AgentEvicted(id)], id);
    NetOfOne(AgentEvicted(id), id);
  }

  /** Events balance in every run exactly when eviction never comes before the
      disconnect threshold, which is a question about the settings alone. */
  lemma ConservationExactly(cfg: Config)
    ensures AlwaysConserved(cfg) <==> cfg.staleMissedHeartbeats >= 2 || cfg.heartbeatInterval == 1
  {
    EvictionThreshold(cfg);
    if EvictAfter(cfg) >= DisconnectThreshold(cfg) {
      forall states, ops, n, id | IsRun(cfg, states, ops) && 0 <= n < |states| ensures Conserved(states[n], id) {
        RunConserves(cfg, states, ops, n, id);
      }
    } else {
      var states, ops, id := EvictedWhileConnected(cfg);
      assert !Conserved(states[2], id);
    }
  }

  lemma EvictionThreshold(cfg: Config)
    ensures EvictAfter(cfg) >= DisconnectThreshold(cfg) <==> cfg.staleMissedHeartbeats >= 2 || cfg.heartbeatInterval == 1
  {
  }

  // ----- what a sweep leaves behind -----

  /** A sweep evicts exactly the over-age agents, leaves none that is connected past
      the threshold, and changes nothing but liveness of those it keeps. */
  lemma SweepLeaves(cfg: Config, agents: map<Id, Agent>, now: Time, id: Id)
    ensures var after := ApplyOp(cfg, agents, Op.Sweep(now));
            && (id in after <==> id in agents && now - agents[id].lastSeen <= EvictAfter(cfg))
            && (id in after ==>
                  && !(after[id].connected && now - after[id].lastSeen > DisconnectThreshold(cfg))
                  && (after[id] == agents[id] || after[id] == agents[id].(connected := false)))
  {
  }
}
