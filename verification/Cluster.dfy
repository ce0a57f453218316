/** Any number of replicas over one store. Replicas take reports, sweep, snapshot
    their agents for writing, start and crash; a snapshot once taken may reach the
    store at any later time, any number of times, or never. */
module Cluster {
  import opened Fleet
  import opened Store
  import opened StoreRuns
  import opened ReadPath
  import Retention

  type ReplicaId = nat

  /** lastIn is the true time of each agent's last check-in, on any replica. */
  datatype World = World(now: Time, replicas: map<ReplicaId, map<Id, Agent>>, taken: set<Agent>, db: Db,
                         lastIn: map<Id, Time>)

  datatype Action =
    | Advance(to: Time)
    | Start(r: ReplicaId)
    | Crash(r: ReplicaId)
    | CheckIn(r: ReplicaId, msg: Message, meta: ConnMeta, at: Time)
    | MarkConnected(r: ReplicaId, id: Id, connected: bool)
    | SweepNow(r: ReplicaId)
    | TakeSnapshot(r: ReplicaId, id: Id)
    | WriteAgent(a: Agent)
    | WriteSession(a: Agent)
    | Remove(op: StoreOp)

  const GENESIS := World(0, map[], {}, EMPTY_DB, map[])

  function Later(lastIn: map<Id, Time>, id: Id, at: Time): map<Id, Time> {
    lastIn[id := if id in lastIn && lastIn[id] > at then lastIn[id] else at]
  }

  function Registry(w: World, r: ReplicaId, agents: map<Id, Agent>): World {
    w.(replicas := w.replicas[r := agents])
  }

  /** One step; an action that is not possible changes nothing. A report is stamped with
      the clock before its shard lock is taken, so its time may lie in the past. */
  function Next(cfg: Config, w: World, act: Action): World {
    match act
    case Advance(to) => if to >= w.now then w.(now := to) else w
    case Start(r) => if r !in w.replicas then Registry(w, r, map[]) else w
    case Crash(r) => w.(replicas := w.replicas - {r})
    case CheckIn(r, msg, meta, at) =>
      if r in w.replicas && msg.uid.Some? && at <= w.now
      then Registry(w, r, ApplyOp(cfg, w.replicas[r], Op.Report(msg, meta, at))).(lastIn := Later(w.lastIn, msg.uid.value, at))
      else w
    case MarkConnected(r, id, connected) =>
      if r in w.replicas then Registry(w, r, ApplyOp(cfg, w.replicas[r], Op.SetConnected(id, connected))) else w
    case SweepNow(r) =>
      if r in w.replicas then Registry(w, r, ApplyOp(cfg, w.replicas[r], Op.Sweep(w.now))) else w
    case TakeSnapshot(r, id) =>
      if r in w.replicas && id in w.replicas[r] then w.(taken := w.taken + {w.replicas[r][id]}) else w
    case WriteAgent(a) => if a in w.taken then w.(db := Apply(w.db, SaveAgent(a))) else w
    case WriteSession(a) => if a in w.taken then w.(db := Apply(w.db, SaveSession(a))) else w
    case Remove(op) => if op.SaveAgent? || op.SaveSession? then w else w.(db := Apply(w.db, op))
  }

  function Run(cfg: Config, acts: seq<Action>): World {
    if acts == [] then GENESIS else Next(cfg, Run(cfg, acts[..|acts| - 1]), acts[|acts| - 1])
  }

  // ----- no record anywhere is newer than the truth -----

  predicate NotAhead(a: Agent, lastIn: map<Id, Time>) {
    a.instanceUID in lastIn && a.lastSeen <= lastIn[a.instanceUID]
  }

  ghost predicate AgentsTrue(agents: map<Id, Agent>, lastIn: map<Id, Time>) {
    forall id :: id in agents ==> agents[id].instanceUID == id && NotAhead(agents[id], lastIn)
  }

  ghost predicate SessionsTrue(sessions: map<Id, SessionRow>, lastIn: map<Id, Time>) {
    forall id :: id in sessions ==> id in lastIn && sessions[id].updatedAt <= lastIn[id]
  }

  ghost predicate Truthful(w: World) {
    && (forall r :: r in w.replicas ==> AgentsTrue(w.replicas[r], w.lastIn))
    && (forall a :: a in w.taken ==> NotAhead(a, w.lastIn))
    && SessionsTrue(w.db.sessions, w.lastIn)
    && SessionsFollow(w.db)
  }

  lemma AgentsStayTrue(cfg: Config, agents: map<Id, Agent>, lastIn: map<Id, Time>, op: Op)
    requires AgentsTrue(agents, lastIn) && !op.Report?
    ensures AgentsTrue(ApplyOp(cfg, agents, op), lastIn)
  {
  }

  lemma ReportStaysTrue(cfg: Config, agents: map<Id, Agent>, lastIn: map<Id, Time>, op: Op)
    requires AgentsTrue(agents, lastIn) && op.Report? && op.msg.uid.Some?
    ensures AgentsTrue(ApplyOp(cfg, agents, op), Later(lastIn, op.msg.uid.value, op.now))
  {
    var id := op.msg.uid.value;
    FoldChecksIn(cfg, Known(agents, id, op.now), op.msg, op.meta, op.now);
    var after := ApplyOp(cfg, agents, op);
    forall x | x in after
      ensures after[x].instanceUID == x && NotAhead(after[x], Later(lastIn, id, op.now))
    {
      if x != id {
        assert NotAhead(agents[x], lastIn);
      }
    }
  }

  lemma LaterKeepsAgentsTrue(agents: map<Id, Agent>, lastIn: map<Id, Time>, id: Id, at: Time)
    requires AgentsTrue(agents, lastIn)
    ensures AgentsTrue(agents, Later(lastIn, id, at))
  {
    forall x | x in agents ensures agents[x].instanceUID == x && NotAhead(agents[x], Later(lastIn, id, at)) {
      assert NotAhead(agents[x], lastIn);
    }
  }

  lemma LaterKeepsTrue(w: World, id: Id, at: Time)
    requires Truthful(w)
    ensures Truthful(w.(lastIn := Later(w.lastIn, id, at)))
  {
    var lastIn := Later(w.lastIn, id, at);
    forall r | r in w.replicas ensures AgentsTrue(w.replicas[r], lastIn) {
      LaterKeepsAgentsTrue(w.replicas[r], w.lastIn, id, at);
    }
    forall a | a in w.taken ensures NotAhead(a, lastIn) {
      assert NotAhead(a, w.lastIn);
    }
  }

  lemma StoreStaysTrue(db: Db, op: StoreOp, lastIn: map<Id, Time>)
    requires SessionsTrue(db.sessions, lastIn) && SessionsFollow(db)
    requires (op.SaveAgent? || op.SaveSession?) ==> NotAhead(op.agent, lastIn)
    ensures SessionsTrue(Apply(db, op).sessions, lastIn) && SessionsFollow(Apply(db, op))
  {
    StepSessionsFollow(db, op);
    match op
    case SaveAgent(_) =>
    case SaveSession(_) =>
    case SoftDelete(_, _) =>
    case Delete(_) =>
    case Purge(_) =>
  }

  lemma RegistryStaysTrue(w: World, r: ReplicaId, agents: map<Id, Agent>)
    requires Truthful(w) && AgentsTrue(agents, w.lastIn)
    ensures Truthful(Registry(w, r, agents))
  {
  }

  lemma StepStaysTrue(cfg: Config, w: World, act: Action)
    requires Truthful(w)
    ensures Truthful(Next(cfg, w, act))
  {
    match act
    case Advance(_) =>
    case Start(r) =>
      RegistryStaysTrue(w, r, map[]);
    case Crash(_) =>
    case CheckIn(r, msg, meta, at) =>
      if r in w.replicas && msg.uid.Some? && at <= w.now {
        var op := Op.Report(msg, meta, at);
        var w1 := w.(lastIn := Later(w.lastIn, msg.uid.value, at));
        LaterKeepsTrue(w, msg.uid.value, at);
        ReportStaysTrue(cfg, w.replicas[r], w.lastIn, op);
        RegistryStaysTrue(w1, r, ApplyOp(cfg, w.replicas[r], op));
      }
    case MarkConnected(r, id, connected) =>
      if r in w.replicas {
        AgentsStayTrue(cfg, w.replicas[r], w.lastIn, Op.SetConnected(id, connected));
        RegistryStaysTrue(w, r, ApplyOp(cfg, w.replicas[r], Op.SetConnected(id, connected)));
      }
    case SweepNow(r) =>
      if r in w.replicas {
        AgentsStayTrue(cfg, w.replicas[r], w.lastIn, Op.Sweep(w.now));
        RegistryStaysTrue(w, r, ApplyOp(cfg, w.replicas[r], Op.Sweep(w.now)));
      }
    case TakeSnapshot(_, _) =>
    case WriteAgent(a) =>
      if a in w.taken { StoreStaysTrue(w.db, SaveAgent(a), w.lastIn); }
    case WriteSession(a) =>
      if a in w.taken { StoreStaysTrue(w.db, SaveSession(a), w.lastIn); }
    case Remove(op) =>
      if !op.SaveAgent? && !op.SaveSession? { StoreStaysTrue(w.db, op, w.lastIn); }
  }

  /** In every run, no registry, snapshot or stored session is ahead of an agent's true last check-in. */
  lemma {:induction false} NothingAheadOfTheTruth(cfg: Config, acts: seq<Action>)
    ensures Truthful(Run(cfg, acts))
  {
    if acts != [] {
      NothingAheadOfTheTruth(cfg, acts[..|acts| - 1]);
      StepStaysTrue(cfg, Run(cfg, acts[..|acts| - 1]), acts[|acts| - 1]);
    }
  }

  // ----- dead agents are not shown connected -----

  /** id has not checked in anywhere for longer than the threshold. */
  ghost predicate Silent(cfg: Config, w: World, id: Id) {
    id !in w.lastIn || w.now - w.lastIn[id] > DisconnectThreshold(cfg)
  }

  ghost predicate ShowsConnected(merged: seq<Agent>, id: Id) {
    exists k :: 0 <= k < |merged| && merged[k].instanceUID == id && merged[k].connected
  }

  /** No stored session is ahead of the true last check-in, and id has been silent past the threshold. */
  ghost predicate StoredAndSilent(cfg: Config, db: Db, lastIn: map<Id, Time>, now: Time, id: Id) {
    && SessionsTrue(db.sessions, lastIn) && SessionsFollow(db)
    && (id in lastIn ==> now - lastIn[id] > DisconnectThreshold(cfg))
  }

  lemma StoredSilence(cfg: Config, db: Db, lastIn: map<Id, Time>, now: Time, id: Id)
    requires StoredAndSilent(cfg, db, lastIn, now, id) && id in Stored(db)
    ensures !Corrected(Stored(db)[id], now, DisconnectThreshold(cfg)).connected
  {
  }

  /** A silent agent a replica lists as connected is one it holds itself. */
  lemma ListedConnection(cfg: Config, local: map<Id, Agent>, db: Db, lastIn: map<Id, Time>, now: Time, id: Id, merged: seq<Agent>)
    requires StoredAndSilent(cfg, db, lastIn, now, id) && IsMerged(merged, local, db, now, DisconnectThreshold(cfg))
    ensures ShowsConnected(merged, id) ==> id in local && local[id].connected
  {
    var t := DisconnectThreshold(cfg);
    var mine, stored :|
      && Lists(mine, local) && Lists(stored, Stored(db))
      && merged == mine + Remote(Uids(mine), stored, now, t);
    if k :| 0 <= k < |merged| && merged[k].instanceUID == id && merged[k].connected {
      MergedEntry(mine, stored, local, Stored(db), now, t, k);
      if id !in local {
        StoredSilence(cfg, db, lastIn, now, id);
      }
    }
  }

  lemma DetailConnection(cfg: Config, local: map<Id, Agent>, db: Db, lastIn: map<Id, Time>, now: Time, id: Id)
    requires StoredAndSilent(cfg, db, lastIn, now, id) && id !in local
    ensures var d := GetAgent(local, Some(db), false, id, now, DisconnectThreshold(cfg)); d.Found? ==> !d.agent.connected
  {
    if id in db.agents {
      StoredSilence(cfg, db, lastIn, now, id);
    }
  }

  /** In every run, crashes included, a replica that knows an agent only from the store
      never shows it connected once it has been silent everywhere past the threshold:
      not in its list and not in its detail view. */
  lemma DeadAgentsShowDisconnected(cfg: Config, acts: seq<Action>, r: ReplicaId, id: Id, merged: seq<Agent>)
    requires r in Run(cfg, acts).replicas && id !in Run(cfg, acts).replicas[r]
    requires Silent(cfg, Run(cfg, acts), id)
    requires var w := Run(cfg, acts); IsMerged(merged, w.replicas[r], w.db, w.now, DisconnectThreshold(cfg))
    ensures !ShowsConnected(merged, id)
    ensures var w := Run(cfg, acts);
            var d := GetAgent(w.replicas[r], Some(w.db), false, id, w.now, DisconnectThreshold(cfg));
            d.Found? ==> !d.agent.connected
  {
    var w := Run(cfg, acts);
    NothingAheadOfTheTruth(cfg, acts);
    ListedConnection(cfg, w.replicas[r], w.db, w.lastIn, w.now, id, merged);
    DetailConnection(cfg, w.replicas[r], w.db, w.lastIn, w.now, id);
  }

  lemma SweepThenRead(cfg: Config, agents: map<Id, Agent>, db: Db, lastIn: map<Id, Time>, now: Time, id: Id, merged: seq<Agent>)
    requires AgentsTrue(agents, lastIn) && StoredAndSilent(cfg, db, lastIn, now, id)
    requires IsMerged(merged, ApplyOp(cfg, agents, Op.Sweep(now)), db, now, DisconnectThreshold(cfg))
    ensures !ShowsConnected(merged, id)
  {
    ListedConnection(cfg, ApplyOp(cfg, agents, Op.Sweep(now)), db, lastIn, now, id, merged);
    SweptSilence(cfg, agents, lastIn, now, id);
  }

  /** And right after a replica sweeps, it shows no silent agent connected at all. */
  lemma NothingSilentAfterSweep(cfg: Config, acts: seq<Action>, r: ReplicaId, id: Id, merged: seq<Agent>)
    requires acts != [] && acts[|acts| - 1] == SweepNow(r) && r in Run(cfg, acts).replicas
    requires Silent(cfg, Run(cfg, acts), id)
    requires var w := Run(cfg, acts); IsMerged(merged, w.replicas[r], w.db, w.now, DisconnectThreshold(cfg))
    ensures !ShowsConnected(merged, id)
  {
    NothingAheadOfTheTruth(cfg, acts[..|acts| - 1]);
    var before := Run(cfg, acts[..|acts| - 1]);
    SweepThenRead(cfg, before.replicas[r], before.db, before.lastIn, before.now, id, merged);
  }

  lemma SweptSilence(cfg: Config, agents: map<Id, Agent>, lastIn: map<Id, Time>, now: Time, id: Id)
    requires AgentsTrue(agents, lastIn) && (id in lastIn ==> now - lastIn[id] > DisconnectThreshold(cfg))
    ensures id in ApplyOp(cfg, agents, Op.Sweep(now)) ==> !ApplyOp(cfg, agents, Op.Sweep(now))[id].connected
  {
  }

  // ----- an agent that comes back stays hidden -----

  /** A replica that does not hold an agent itself neither lists nor finds it once its row has been
      soft-deleted, whatever is saved of it afterwards, for as long as the row lives. */
  lemma HiddenOnceSoftDeleted(ops: seq<StoreOp>, i: nat, id: Id, e: Time, local: map<Id, Agent>, merged: seq<Agent>, now: Time, t: Time)
    requires i <= |ops| && LivesSince(ops, i, id) && Retention.Evicted(StoreRuns.Run(ops[..i]), id, e)
    requires id !in local && id != "" && IsMerged(merged, local, StoreRuns.Run(ops), now, t)
    ensures GetAgent(local, Some(StoreRuns.Run(ops)), false, id, now, t) == NotFound
    ensures id !in Uids(merged)
  {
    Retention.EvictedAtSticks(ops, i, id, e);
    RunSessionsFollow(ops);
    ListAndDetailAgree(merged, local, StoreRuns.Run(ops), now, t, id);
  }

  function Hello(id: Id): Message {
    Message(Some(id), 0, 0, None, None, map[], map[])
  }

  const NO_META := ConnMeta("", "", false, "")

  /** The agent as a bare report leaves it on a replica that did not know it. */
  function Registered(cfg: Config, id: Id, at: Time): Agent {
    Fold(cfg, Fresh(id, at), Hello(id), NO_META, at)
  }

  lemma Then(cfg: Config, acts: seq<Action>, act: Action, w: World)
    requires Next(cfg, Run(cfg, acts), act) == w
    ensures Run(cfg, acts + [act]) == w
  {
    assert (acts + [act])[..|acts|] == acts;
  }

  /** Two replicas, the first of which may hold the agent. */
  ghost function Pair(now: Time, held: map<Id, Agent>, taken: set<Agent>, db: Db, lastIn: map<Id, Time>): World {
    World(now, map[0 := held, 1 := map[]], taken, db, lastIn)
  }

  lemma BothStart(cfg: Config) returns (acts: seq<Action>)
    ensures Run(cfg, acts) == Pair(0, map[], {}, EMPTY_DB, map[])
  {
    Then(cfg, [], Start(0), World(0, map[0 := map[]], {}, EMPTY_DB, map[]));
    Then(cfg, [] + [Start(0)], Start(1), Pair(0, map[], {}, EMPTY_DB, map[]));
    acts := [] + [Start(0)] + [Start(1)];
  }

  lemma PairChecksIn(cfg: Config, id: Id, now: Time, taken: set<Agent>, db: Db, lastIn: map<Id, Time>)
    requires id in lastIn ==> lastIn[id] <= now
    ensures Next(cfg, Pair(now, map[], taken, db, lastIn), CheckIn(0, Hello(id), NO_META, now))
         == Pair(now, map[id := Registered(cfg, id, now)], taken, db, lastIn[id := now])
  {
    var a, w := Registered(cfg, id, now), Pair(now, map[], taken, db, lastIn);
    assert ApplyOp(cfg, map[], Op.Report(Hello(id), NO_META, now)) == map[id := a];
    assert w.replicas[0 := map[id := a]] == map[0 := map[id := a], 1 := map[]];
  }

  lemma PairTakes(cfg: Config, id: Id, a: Agent, now: Time, taken: set<Agent>, db: Db, lastIn: map<Id, Time>)
    ensures Next(cfg, Pair(now, map[id := a], taken, db, lastIn), TakeSnapshot(0, id))
         == Pair(now, map[id := a], taken + {a}, db, lastIn)
  {
  }

  lemma WriteTaken(cfg: Config, w: World, a: Agent)
    requires a in w.taken
    ensures Next(cfg, w, WriteAgent(a)) == w.(db := SaveAgentTx(w.db, a))
  {
  }

  /** The agent has both its rows, last written at time written, and its soft deletion is mark. */
  predicate HasRows(db: Db, id: Id, written: Time, mark: Option<Time>) {
    && id in db.agents && db.agents[id].updatedAt == written && db.agents[id].evictedAt == mark
    && id in db.sessions
  }

  /** The agent checks in on the first replica and is written to the store. A row it already has keeps
      its soft deletion. */
  lemma ChecksInAndIsSaved(cfg: Config, acts: seq<Action>, id: Id, now: Time, taken: set<Agent>, db: Db, lastIn: map<Id, Time>)
      returns (acts': seq<Action>, db': Db)
    requires Run(cfg, acts) == Pair(now, map[], taken, db, lastIn) && (id in lastIn ==> lastIn[id] <= now)
    requires id in db.agents ==> db.agents[id].updatedAt < now
    ensures var a := Registered(cfg, id, now);
            && Run(cfg, acts') == Pair(now, map[id := a], taken + {a}, db', lastIn[id := now])
            && HasRows(db', id, now, if id in db.agents then db.agents[id].evictedAt else None)
            && db'.agents[id].durable == DurableOf(a)
  {
    var a := Registered(cfg, id, now);
    FoldChecksIn(cfg, Fresh(id, now), Hello(id), NO_META, now);
    var checkIn, take, write := CheckIn(0, Hello(id), NO_META, now), TakeSnapshot(0, id), WriteAgent(a);
    var w := Pair(now, map[id := a], taken, db, lastIn[id := now]);
    PairChecksIn(cfg, id, now, taken, db, lastIn);
    Then(cfg, acts, checkIn, w);
    PairTakes(cfg, id, a, now, taken, db, lastIn[id := now]);
    Then(cfg, acts + [checkIn], take, w.(taken := taken + {a}));
    WriteTaken(cfg, w.(taken := taken + {a}), a);
    db' := SaveAgentTx(db, a);
    Then(cfg, acts + [checkIn] + [take], write, w.(taken := taken + {a}, db := db'));
    acts' := acts + [checkIn] + [take] + [write];
    SavedRows(db, a);
  }

  lemma SavedRows(db: Db, a: Agent)
    requires AgentsAccepts(db.agents, a)
    ensures var id := a.instanceUID;
            && HasRows(SaveAgentTx(db, a), id, a.lastSeen, if id in db.agents then db.agents[id].evictedAt else None)
            && SaveAgentTx(db, a).agents[id].durable == DurableOf(a)
  {
  }

  /** Time passes, a sweep evicts the agent, and its row is soft-deleted. */
  lemma IsEvicted(cfg: Config, acts: seq<Action>, id: Id, a: Agent, taken: set<Agent>, db: Db, lastIn: map<Id, Time>)
      returns (acts': seq<Action>, now: Time)
    requires Run(cfg, acts) == Pair(0, map[id := a], taken, db, lastIn) && a.lastSeen <= 0
    ensures now > 0 && Run(cfg, acts') == Pair(now, map[], taken, SoftDeleteTx(db, id, now), lastIn)
  {
    now := if EvictAfter(cfg) < 0 then 1 else EvictAfter(cfg) + 1;
    assert Fleet.Evicts(cfg, a, now);
    var advance, sweep, forget := Advance(now), SweepNow(0), Remove(SoftDelete(id, now));
    Then(cfg, acts, advance, Pair(now, map[id := a], taken, db, lastIn));
    PairSweeps(cfg, id, a, now, taken, db, lastIn);
    Then(cfg, acts + [advance], sweep, Pair(now, map[], taken, db, lastIn));
    Then(cfg, acts + [advance] + [sweep], forget, Pair(now, map[], taken, SoftDeleteTx(db, id, now), lastIn));
    acts' := acts + [advance] + [sweep] + [forget];
  }

  lemma PairSweeps(cfg: Config, id: Id, a: Agent, now: Time, taken: set<Agent>, db: Db, lastIn: map<Id, Time>)
    requires Fleet.Evicts(cfg, a, now)
    ensures Next(cfg, Pair(now, map[id := a], taken, db, lastIn), SweepNow(0)) == Pair(now, map[], taken, db, lastIn)
  {
    assert ApplyOp(cfg, map[id := a], Op.Sweep(now)) == map[];
    assert Pair(now, map[id := a], taken, db, lastIn).replicas[0 := map[]] == map[0 := map[], 1 := map[]];
  }

  /** A run in which an agent is saved, evicted, soft-deleted and comes back: it ends registered and saved on
      one replica, and not found on the other. */
  lemma ComesBackHidden(cfg: Config, id: Id) returns (acts: seq<Action>)
    requires id != ""
    ensures var w := Run(cfg, acts);
            && 0 in w.replicas && 1 in w.replicas && id in w.replicas[0] && id !in w.replicas[1]
            && id in w.db.agents && w.db.agents[id].durable == DurableOf(w.replicas[0][id])
            && GetAgent(w.replicas[1], Some(w.db), false, id, w.now, DisconnectThreshold(cfg)) == NotFound
  {
    var now, db;
    acts, now, db := SavedThenEvicted(cfg, id);
    acts, db := ChecksInAndIsSaved(cfg, acts, id, now, {Registered(cfg, id, 0)}, db, map[id := 0]);
  }

  lemma SavedThenEvicted(cfg: Config, id: Id) returns (acts: seq<Action>, now: Time, db: Db)
    ensures now > 0 && Run(cfg, acts) == Pair(now, map[], {Registered(cfg, id, 0)}, db, map[id := 0])
    ensures HasRows(db, id, 0, Some(now))
  {
    var a := Registered(cfg, id, 0);
    FoldChecksIn(cfg, Fresh(id, 0), Hello(id), NO_META, 0);
    acts := BothStart(cfg);
    acts, db := ChecksInAndIsSaved(cfg, acts, id, 0, {}, EMPTY_DB, map[]);
    assert {} + {a} == {a} && map[][id := 0] == map[id := 0];
    acts, now := IsEvicted(cfg, acts, id, a, {a}, db, map[id := 0]);
    db := SoftDeleteTx(db, id, now);
  }
}
