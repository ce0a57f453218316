/** The three Postgres tables and the guarded writes over them. Each SQL
    statement is one step on a map; a transaction works on copies of the tables
    and installs them only when it commits. */
module Store {
  import opened Fleet

  /** The columns an agents upsert overwrites. */
  datatype Durable = Durable(
    lastSeen: Time, healthy: bool, healthError: string, healthStatus: string, healthStartTime: Option<nat>,
    healthStatusTime: Option<nat>, healthReported: bool, capabilities: nat, identifying: map<string, string>,
    nonIdentifying: map<string, string>, missingAttributes: seq<string>, reservedConflicts: seq<string>,
    packages: map<string, Package>)

  datatype AgentRow = AgentRow(firstSeen: Time, durable: Durable, evictedAt: Option<Time>, updatedAt: Time)

  datatype SessionRow = SessionRow(connected: bool, conn: ConnMeta, descriptionReported: bool, sequenceNum: nat,
                                   updatedAt: Time)

  datatype ConfigRow = ConfigRow(body: string, updatedAt: Time)

  /** agent_session and agent_effective_config reference agents and cascade on delete. */
  datatype Db = Db(agents: map<Id, AgentRow>, sessions: map<Id, SessionRow>, configs: map<(Id, string), ConfigRow>)

  const EMPTY_DB := Db(map[], map[], map[])

  function DurableOf(a: Agent): Durable {
    Durable(a.lastSeen, a.healthy, a.healthError, a.healthStatus, a.healthStartTime, a.healthStatusTime,
            a.healthReported, a.capabilities, a.identifying, a.nonIdentifying, a.missingAttributes,
            a.reservedConflicts, a.packages)
  }

  function SessionOf(a: Agent): SessionRow {
    SessionRow(a.connected, a.conn, a.descriptionReported, a.sequenceNum, a.lastSeen)
  }

  function ConfigsOf(a: Agent): map<string, ConfigRow> {
    map f | f in a.effectiveConfig :: ConfigRow(a.effectiveConfig[f], a.lastSeen)
  }

  /** The files stored for one agent. */
  function FilesOf(db: Db, id: Id): map<string, ConfigRow> {
    map k | k in db.configs && k.0 == id :: k.1 := db.configs[k]
  }

  // ----- the statements -----

  /** The agents guard: strictly newer, or first. */
  predicate AgentsAccepts(agents: map<Id, AgentRow>, a: Agent) {
    a.instanceUID in agents ==> agents[a.instanceUID].updatedAt < a.lastSeen
  }

  /** The session guard: not older, so a disconnect at an unmoved check-in time lands. */
  predicate SessionAccepts(sessions: map<Id, SessionRow>, a: Agent) {
    a.instanceUID in sessions ==> sessions[a.instanceUID].updatedAt <= a.lastSeen
  }

  /** An existing row keeps its first_seen and its evicted_at. */
  function UpsertAgent(agents: map<Id, AgentRow>, a: Agent): map<Id, AgentRow> {
    if !AgentsAccepts(agents, a) then agents
    else if a.instanceUID in agents
    then agents[a.instanceUID := agents[a.instanceUID].(durable := DurableOf(a), updatedAt := a.lastSeen)]
    else agents[a.instanceUID := AgentRow(a.firstSeen, DurableOf(a), None, a.lastSeen)]
  }

  function UpsertSession(sessions: map<Id, SessionRow>, a: Agent): map<Id, SessionRow> {
    if SessionAccepts(sessions, a) then sessions[a.instanceUID := SessionOf(a)] else sessions
  }

  function ClearFiles(configs: map<(Id, string), ConfigRow>, id: Id): map<(Id, string), ConfigRow> {
    map k | k in configs && k.0 != id :: configs[k]
  }

  function WithFiles(configs: map<(Id, string), ConfigRow>, id: Id, files: map<string, ConfigRow>): map<(Id, string), ConfigRow> {
    configs + map f | f in files :: (id, f) := files[f]
  }

  // ----- the operations -----

  /** What a committed SaveAgent does: config files follow the agents row, the session does not wait for it. */
  function SaveAgentTx(db: Db, a: Agent): Db {
    Db(UpsertAgent(db.agents, a),
       UpsertSession(db.sessions, a),
       if AgentsAccepts(db.agents, a)
       then WithFiles(ClearFiles(db.configs, a.instanceUID), a.instanceUID, ConfigsOf(a))
       else db.configs)
  }

  /** A session row needs its agents row: without one the foreign key refuses the insert. */
  function SaveSessionTx(db: Db, a: Agent): Db {
    if a.instanceUID in db.agents then db.(sessions := UpsertSession(db.sessions, a)) else db
  }

  function SoftDeleteTx(db: Db, id: Id, evictedAt: Time): Db {
    if id in db.agents && db.agents[id].evictedAt.None?
    then db.(agents := db.agents[id := db.agents[id].(evictedAt := Some(evictedAt))])
    else db
  }

  function DeleteTx(db: Db, gone: set<Id>): Db {
    Db(db.agents - gone, db.sessions - gone, map k | k in db.configs && k.0 !in gone :: db.configs[k])
  }

  predicate Expired(row: AgentRow, before: Time) {
    row.evictedAt.Some? && row.evictedAt.value < before
  }

  function PurgeTx(db: Db, before: Time): Db {
    DeleteTx(db, set id | id in db.agents && Expired(db.agents[id], before))
  }

  // ----- reading back -----

  datatype Result<+T> = Ok(value: T) | Err

  /** Reads one row back. The join is an outer one, but a missing session row does not
      scan: its description_reported and sequence_num are NULL. */
  function ScanAgent(db: Db, id: Id): Result<Agent>
    requires id in db.agents
  {
    if id !in db.sessions then Err
    else
      var row, s := db.agents[id], db.sessions[id];
      var d := row.durable;
      Ok(Agent(id, s.sequenceNum, d.identifying, d.nonIdentifying, d.capabilities, d.healthy, d.healthError,
               d.healthStatus, d.healthStartTime, d.healthStatusTime, d.healthReported, s.descriptionReported,
               map f | f in FilesOf(db, id) :: FilesOf(db, id)[f].body,
               d.packages, s.conn, s.connected, row.firstSeen, d.lastSeen, d.missingAttributes,
               d.reservedConflicts, row.evictedAt, Some(s.updatedAt)))
  }

  /** The store holds neither row, session nor file of id. */
  ghost predicate HasNothing(db: Db, id: Id) {
    id !in db.agents && id !in db.sessions && FilesOf(db, id) == map[]
  }

  /** Two stores hold the same row, session and files of id, or neither holds any. */
  ghost predicate SameRecord(db: Db, db': Db, id: Id) {
    && (id in db.agents <==> id in db'.agents) && (id in db.agents ==> db.agents[id] == db'.agents[id])
    && (id in db.sessions <==> id in db'.sessions) && (id in db.sessions ==> db.sessions[id] == db'.sessions[id])
    && FilesOf(db, id) == FilesOf(db', id)
  }

  lemma DeletedFiles(db: Db, gone: set<Id>, x: Id)
    ensures FilesOf(DeleteTx(db, gone), x) == if x in gone then map[] else FilesOf(db, x)
  {
    var after := DeleteTx(db, gone);
    forall f ensures f in FilesOf(after, x) <==> x !in gone && f in FilesOf(db, x) {
      assert (x, f) in after.configs <==> (x, f) in db.configs && x !in gone;
    }
  }

  /** A delete, and its cascade, take everything of the ids deleted and nothing else. */
  lemma DeletedRecord(db: Db, gone: set<Id>, x: Id)
    ensures if x in gone then HasNothing(DeleteTx(db, gone), x) else SameRecord(db, DeleteTx(db, gone), x)
  {
    DeletedFiles(db, gone, x);
  }

  // ----- the store as an object -----

  class PostgresStore {
    var agents: map<Id, AgentRow>
    var sessions: map<Id, SessionRow>
    var configs: map<(Id, string), ConfigRow>

    ghost function Tables(): Db
      reads this
    {
      Db(agents, sessions, configs)
    }

    constructor ()
      ensures Tables() == EMPTY_DB
    {
      agents, sessions, configs := map[], map[], map[];
    }

    /** fails says which of the transaction's statements the database refuses: 0 and 1 are the upserts of
        agents and agent_session, 2 clears the files, 3 is the commit, and 4 on insert the files. */
    method SaveAgent(agent: Agent, fails: nat -> bool) returns (ok: bool)
      modifies this
      ensures ok ==> Tables() == SaveAgentTx(old(Tables()), agent)
      ensures !ok ==> Tables() == old(Tables())
      ensures ok <==> !fails(0) && !fails(1) && !fails(3)
                      && (AgentsAccepts(old(agents), agent) ==> !fails(2) && InsertsPass(agent, fails))
    {
      if fails(0) { return false; }
      var agentsUpdated := AgentsAccepts(agents, agent);
      var txAgents := UpsertAgent(agents, agent);
      if fails(1) { return false; }
      var txSessions := UpsertSession(sessions, agent);
      var txConfigs := configs;
      if agentsUpdated {
        if fails(2) { return false; }
        txConfigs := ClearFiles(txConfigs, agent.instanceUID);
        var inserted;
        txConfigs, inserted := InsertFiles(txConfigs, agent, fails);
        if !inserted { return false; }
      }
      if fails(3) { return false; }
      agents, sessions, configs := txAgents, txSessions, txConfigs;
      ok := true;
    }

    /** Inserts the agent's files one statement at a time, in no fixed order. */
    method InsertFiles(configs: map<(Id, string), ConfigRow>, agent: Agent, fails: nat -> bool)
      returns (out: map<(Id, string), ConfigRow>, ok: bool)
      ensures ok ==> out == WithFiles(configs, agent.instanceUID, ConfigsOf(agent))
      ensures ok <==> InsertsPass(agent, fails)
    {
      out := configs;
      var todo, n := agent.effectiveConfig.Keys, 0;
      AllInserted(configs, agent);
      while todo != {}
        invariant todo <= agent.effectiveConfig.Keys && n + |todo| == |agent.effectiveConfig.Keys|
        invariant PassUpTo(fails, n) && out == Inserted(configs, agent, todo)
        decreases todo
      {
        var f :| f in todo;
        if fails(4 + n) {
          return out, false;
        }
        out := InsertFile(out, configs, agent, todo, f);
        todo, n := todo - {f}, n + 1;
      }
      ok := true;
    }

    method InsertFile(before: map<(Id, string), ConfigRow>, ghost configs: map<(Id, string), ConfigRow>, agent: Agent,
                      ghost todo: set<string>, f: string)
      returns (out: map<(Id, string), ConfigRow>)
      requires f in todo && todo <= agent.effectiveConfig.Keys && before == Inserted(configs, agent, todo)
      ensures out == Inserted(configs, agent, todo - {f})
    {
      out := before[(agent.instanceUID, f) := ConfigRow(agent.effectiveConfig[f], agent.lastSeen)];
      FileInserted(configs, agent, todo, f);
    }

    method SaveSession(agent: Agent, fails: bool) returns (ok: bool)
      modifies this
      ensures ok <==> !fails && agent.instanceUID in old(agents)
      ensures Tables() == if ok then SaveSessionTx(old(Tables()), agent) else old(Tables())
    {
      var id := agent.instanceUID;
      if fails || id !in agents { return false; }
      sessions := UpsertSession(sessions, agent);
      ok := true;
    }

    method SoftDeleteAgent(id: Id, evictedAt: Time, fails: bool) returns (ok: bool)
      modifies this
      ensures ok == !fails
      ensures Tables() == if ok then SoftDeleteTx(old(Tables()), id, evictedAt) else old(Tables())
    {
      if fails { return false; }
      ok := true;
      if id in agents && agents[id].evictedAt.None? {
        agents := agents[id := agents[id].(evictedAt := Some(evictedAt))];
      }
    }

    /** Nothing of id is left, and nothing of any other agent is touched. */
    method DeleteAgent(id: Id)
      modifies this
      ensures HasNothing(Tables(), id)
      ensures forall x :: x != id ==> SameRecord(old(Tables()), Tables(), x)
    {
      agents := agents - {id};
      sessions := sessions - {id};
      configs := map k | k in configs && k.0 !in {id} :: configs[k];
      assert Tables() == DeleteTx(old(Tables()), {id});
      forall x ensures if x == id then HasNothing(Tables(), x) else SameRecord(old(Tables()), Tables(), x) {
        DeletedRecord(old(Tables()), {id}, x);
      }
    }

    /** Deletes every row soft-deleted before the cutoff and reports how many went. */
    method Purge(before: Time) returns (n: nat)
      modifies this
      ensures Tables() == PurgeTx(old(Tables()), before)
      ensures n == |old(agents)| - |agents|
    {
      var gone := set id | id in agents && Expired(agents[id], before);
      assert agents.Keys == (agents - gone).Keys + gone;
      n := |gone|;
      agents := agents - gone;
      sessions := sessions - gone;
      configs := map k | k in configs && k.0 !in gone :: configs[k];
    }
  }

  predicate InsertsPass(agent: Agent, fails: nat -> bool) {
    PassUpTo(fails, |agent.effectiveConfig.Keys|)
  }

  predicate PassUpTo(fails: nat -> bool, n: nat) {
    forall m :: 4 <= m < 4 + n ==> !fails(m)
  }

  lemma AllInserted(configs: map<(Id, string), ConfigRow>, agent: Agent)
    ensures Inserted(configs, agent, agent.effectiveConfig.Keys) == configs
    ensures Inserted(configs, agent, {}) == WithFiles(configs, agent.instanceUID, ConfigsOf(agent))
  {
    assert ConfigsOf(agent) - {} == ConfigsOf(agent);
    assert ConfigsOf(agent) - agent.effectiveConfig.Keys == map[];
  }

  /** The table once the agent's files but those in todo have been inserted. */
  ghost function Inserted(configs: map<(Id, string), ConfigRow>, agent: Agent, todo: set<string>): map<(Id, string), ConfigRow> {
    WithFiles(configs, agent.instanceUID, ConfigsOf(agent) - todo)
  }

  lemma FileInserted(configs: map<(Id, string), ConfigRow>, agent: Agent, todo: set<string>, f: string)
    requires f in todo && todo <= agent.effectiveConfig.Keys
    ensures Inserted(configs, agent, todo - {f})
         == Inserted(configs, agent, todo)[(agent.instanceUID, f) := ConfigsOf(agent)[f]]
  {
    assert ConfigsOf(agent) - (todo - {f}) == (ConfigsOf(agent) - todo)[f := ConfigsOf(agent)[f]];
  }
}
