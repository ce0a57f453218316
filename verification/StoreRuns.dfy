/** What every run of store operations keeps, whichever replicas issue them and
    in whatever order they reach the database. */
module StoreRuns {
  import opened Fleet
  import opened Store

  datatype StoreOp =
    | SaveAgent(agent: Agent)
    | SaveSession(agent: Agent)
    | SoftDelete(id: Id, at: Time)
    | Delete(id: Id)
    | Purge(before: Time)

  function Apply(db: Db, op: StoreOp): Db {
    match op
    case SaveAgent(a) => SaveAgentTx(db, a)
    case SaveSession(a) => SaveSessionTx(db, a)
    case SoftDelete(id, at) => SoftDeleteTx(db, id, at)
    case Delete(id) => DeleteTx(db, {id})
    case Purge(before) => PurgeTx(db, before)
  }

  function Run(ops: seq<StoreOp>): Db {
    if ops == [] then EMPTY_DB else Apply(Run(ops[..|ops| - 1]), ops[|ops| - 1])
  }

  // ----- how one operation touches one agent -----

  lemma FilesReplaced(configs: map<(Id, string), ConfigRow>, id: Id, files: map<string, ConfigRow>)
    ensures FilesOf(Db(map[], map[], WithFiles(ClearFiles(configs, id), id, files)), id) == files
  {
  }

  lemma FilesOfOthers(configs: map<(Id, string), ConfigRow>, id: Id, files: map<string, ConfigRow>, x: Id)
    requires x != id
    ensures FilesOf(Db(map[], map[], WithFiles(ClearFiles(configs, id), id, files)), x) == FilesOf(Db(map[], map[], configs), x)
  {
  }

  lemma FilesDependOnConfigs(db: Db, db': Db, id: Id)
    requires db.configs == db'.configs
    ensures FilesOf(db, id) == FilesOf(db', id)
  {
  }

  lemma SaveAgentFiles(db: Db, a: Agent, x: Id)
    ensures FilesOf(SaveAgentTx(db, a), x)
         == if x == a.instanceUID && AgentsAccepts(db.agents, a) then ConfigsOf(a) else FilesOf(db, x)
  {
    if !AgentsAccepts(db.agents, a) {
      FilesDependOnConfigs(db, SaveAgentTx(db, a), x);
    } else if x == a.instanceUID {
      FilesReplaced(db.configs, x, ConfigsOf(a));
    } else {
      FilesOfOthers(db.configs, a.instanceUID, ConfigsOf(a), x);
    }
  }

  /** The agents row and the config files of id hold exactly snapshot a. */
  ghost predicate Holds(db: Db, id: Id, a: Agent) {
    && id in db.agents
    && a.instanceUID == id
    && db.agents[id].durable == DurableOf(a)
    && db.agents[id].updatedAt == a.lastSeen
    && FilesOf(db, id) == ConfigsOf(a)
  }

  predicate Overwrites(db: Db, op: StoreOp, id: Id) {
    op.SaveAgent? && op.agent.instanceUID == id && AgentsAccepts(db.agents, op.agent)
  }

  lemma StepFiles(db: Db, op: StoreOp, id: Id)
    requires id in Apply(db, op).agents
    ensures FilesOf(Apply(db, op), id) == if Overwrites(db, op, id) then ConfigsOf(op.agent) else FilesOf(db, id)
  {
    match op
    case SaveAgent(b) => SaveAgentFiles(db, b, id);
    case SaveSession(b) => FilesDependOnConfigs(db, Apply(db, op), id);
    case SoftDelete(_, _) => FilesDependOnConfigs(db, Apply(db, op), id);
    case Delete(x) => DeletedFiles(db, {x}, id);
    case Purge(before) => DeletedFiles(db, (set x | x in db.agents && Expired(db.agents[x], before)), id);
  }

  lemma StepRow(db: Db, op: StoreOp, id: Id)
    requires id in db.agents && id in Apply(db, op).agents
    ensures var row, row' := db.agents[id], Apply(db, op).agents[id];
            && row'.firstSeen == row.firstSeen
            && row'.durable == (if Overwrites(db, op, id) then DurableOf(op.agent) else row.durable)
            && row'.updatedAt == (if Overwrites(db, op, id) then op.agent.lastSeen else row.updatedAt)
            && row'.evictedAt == (if op.SoftDelete? && op.id == id && row.evictedAt.None? then Some(op.at) else row.evictedAt)
  {
  }

  /** Whatever one operation leaves of a row holds the old snapshot or the one just saved. */
  lemma StepHolds(db: Db, op: StoreOp, id: Id, a: Agent)
    requires Holds(db, id, a) && id in Apply(db, op).agents
    ensures Holds(Apply(db, op), id,
                  if op.SaveAgent? && op.agent.instanceUID == id && a.lastSeen < op.agent.lastSeen then op.agent else a)
  {
    StepRow(db, op, id);
    StepFiles(db, op, id);
  }

  /** Only SaveAgent creates a row, and it creates it from its own snapshot. */
  lemma StepCreates(db: Db, op: StoreOp, id: Id)
    requires id !in db.agents && id in Apply(db, op).agents
    ensures op.SaveAgent? && op.agent.instanceUID == id && Holds(Apply(db, op), id, op.agent)
    ensures Apply(db, op).agents[id].firstSeen == op.agent.firstSeen && Apply(db, op).agents[id].evictedAt == None
  {
    StepFiles(db, op, id);
    match op
    case SaveAgent(_) =>
    case SaveSession(_) =>
    case SoftDelete(_, _) =>
    case Delete(_) =>
    case Purge(_) =>
  }

  // ----- table coupling -----

  /** Every snapshot a run has offered to SaveAgent. */
  function Saved(ops: seq<StoreOp>): set<Agent> {
    if ops == [] then {}
    else Saved(ops[..|ops| - 1]) + if ops[|ops| - 1].SaveAgent? then {ops[|ops| - 1].agent} else {}
  }

  ghost predicate SessionsFollow(db: Db) {
    && db.sessions.Keys == db.agents.Keys
    && (forall k :: k in db.configs ==> k.0 in db.agents)
    && (forall id :: id in db.agents ==> db.agents[id].updatedAt <= db.sessions[id].updatedAt)
  }

  lemma StepSessionsFollow(db: Db, op: StoreOp)
    requires SessionsFollow(db)
    ensures SessionsFollow(Apply(db, op))
  {
    match op
    case SaveAgent(a) =>
    case SaveSession(_) =>
    case SoftDelete(_, _) =>
    case Delete(_) =>
    case Purge(_) =>
  }

  lemma {:induction false} RunSessionsFollow(ops: seq<StoreOp>)
    ensures SessionsFollow(Run(ops))
  {
    if ops != [] {
      RunSessionsFollow(ops[..|ops| - 1]);
      StepSessionsFollow(Run(ops[..|ops| - 1]), ops[|ops| - 1]);
    }
  }

  ghost predicate HeldFrom(db: Db, id: Id, from: set<Agent>) {
    exists a :: a in from && Holds(db, id, a)
  }

  /** In every reachable store the agents row and the config files of an agent come
      from one and the same saved snapshot, and its session row is there and at least as new. */
  lemma {:induction false} TableCoupling(ops: seq<StoreOp>)
    ensures SessionsFollow(Run(ops))
    ensures forall id :: id in Run(ops).agents ==> HeldFrom(Run(ops), id, Saved(ops))
  {
    RunSessionsFollow(ops);
    if ops != [] {
      var n := |ops| - 1;
      var before, op := Run(ops[..n]), ops[n];
      TableCoupling(ops[..n]);
      forall id | id in Run(ops).agents ensures HeldFrom(Run(ops), id, Saved(ops)) {
        if id in before.agents {
          assert HeldFrom(before, id, Saved(ops[..n]));
          var a :| a in Saved(ops[..n]) && Holds(before, id, a);
          StepHolds(before, op, id, a);
        } else {
          StepCreates(before, op, id);
        }
      }
    }
  }

  lemma BodiesOf(a: Agent)
    ensures a.effectiveConfig == map f | f in ConfigsOf(a) :: ConfigsOf(a)[f].body
  {
  }

  lemma ScanHeld(db: Db, id: Id, a: Agent)
    requires Holds(db, id, a) && id in db.sessions
    ensures SameContent(ScanAgent(db, id).value, a)
  {
  }

  /** So every stored agent scans, and reads back one saved snapshot's durable fields and files. */
  lemma ReadsBackOneSnapshot(ops: seq<StoreOp>, id: Id)
    requires id in Run(ops).agents
    ensures ScanAgent(Run(ops), id).Ok?
    ensures exists a :: a in Saved(ops) && SameContent(ScanAgent(Run(ops), id).value, a)
  {
    TableCoupling(ops);
    assert HeldFrom(Run(ops), id, Saved(ops));
    var a :| a in Saved(ops) && Holds(Run(ops), id, a);
    ScanHeld(Run(ops), id, a);
  }

  // ----- timestamps never go back -----

  /** id has a row after every prefix of at least i operations. */
  ghost predicate LivesSince(ops: seq<StoreOp>, i: nat, id: Id) {
    id in Run(ops).agents && (i < |ops| ==> LivesSince(ops[..|ops| - 1], i, id))
  }

  /** id keeps its row and session, neither of them older, and its first_seen. */
  ghost predicate NoOlder(db: Db, db': Db, id: Id) {
    && id in db.agents && id in db'.agents && id in db.sessions && id in db'.sessions
    && db.agents[id].updatedAt <= db'.agents[id].updatedAt
    && db.sessions[id].updatedAt <= db'.sessions[id].updatedAt
    && db.agents[id].firstSeen == db'.agents[id].firstSeen
  }

  lemma StepAdvances(db: Db, op: StoreOp, id: Id)
    requires SessionsFollow(db) && id in db.agents && id in Apply(db, op).agents
    ensures NoOlder(db, Apply(db, op), id)
  {
  }

  /** While a row lives, neither of its timestamps decreases and first_seen never moves. */
  lemma {:induction false} TimestampsAdvance(ops: seq<StoreOp>, i: nat, id: Id)
    requires i <= |ops| && LivesSince(ops, i, id)
    ensures NoOlder(Run(ops[..i]), Run(ops), id)
  {
    if i == |ops| {
      RunSessionsFollow(ops);
      assert ops[..i] == ops;
    } else {
      var n := |ops| - 1;
      TimestampsAdvance(ops[..n], i, id);
      assert ops[..n][..i] == ops[..i];
      RunSessionsFollow(ops[..n]);
      StepAdvances(Run(ops[..n]), ops[n], id);
    }
  }

  // ----- convergence -----

  /** Once id has a row, the run never removes it. */
  ghost predicate Stays(ops: seq<StoreOp>, id: Id) {
    ops == [] || (var init := ops[..|ops| - 1];
                  Stays(init, id) && (id in Run(init).agents ==> id in Run(ops).agents))
  }

  /** The snapshots of id offered to SaveAgent, in the order they reached the store. */
  function Snapshots(ops: seq<StoreOp>, id: Id): seq<Agent> {
    if ops == [] then []
    else
      var rest, op := Snapshots(ops[..|ops| - 1], id), ops[|ops| - 1];
      if op.SaveAgent? && op.agent.instanceUID == id then rest + [op.agent] else rest
  }

  /** The first to arrive of those with the newest event time. */
  function FirstNewest(snaps: seq<Agent>): Agent
    requires snaps != []
  {
    var last := snaps[|snaps| - 1];
    if |snaps| == 1 then last
    else
      var best := FirstNewest(snaps[..|snaps| - 1]);
      if best.lastSeen < last.lastSeen then last else best
  }

  /** The store holds the first newest snapshot of id, or nothing when there is none. */
  ghost predicate HoldsFirstNewest(db: Db, id: Id, snaps: seq<Agent>) {
    && (id in db.agents <==> snaps != [])
    && (snaps != [] ==> Holds(db, id, FirstNewest(snaps)) && db.agents[id].firstSeen == snaps[0].firstSeen)
  }

  lemma FirstNewestStep(db: Db, op: StoreOp, id: Id, snaps: seq<Agent>)
    requires HoldsFirstNewest(db, id, snaps) && (id in db.agents ==> id in Apply(db, op).agents)
    ensures HoldsFirstNewest(Apply(db, op), id,
                             if op.SaveAgent? && op.agent.instanceUID == id then snaps + [op.agent] else snaps)
  {
    if snaps != [] {
      StepRow(db, op, id);
      StepHolds(db, op, id, FirstNewest(snaps));
      if op.SaveAgent? && op.agent.instanceUID == id {
        assert (snaps + [op.agent])[..|snaps|] == snaps;
      }
    } else if id in Apply(db, op).agents {
      StepCreates(db, op, id);
      assert snaps + [op.agent] == [op.agent];
    }
  }

  /** However operations interleave, the stored row and files are those of the first
      snapshot to carry the newest event time, under the first snapshot's first_seen. */
  lemma {:induction false} StoreHoldsFirstNewest(ops: seq<StoreOp>, id: Id)
    requires Stays(ops, id)
    ensures HoldsFirstNewest(Run(ops), id, Snapshots(ops, id))
  {
    if ops != [] {
      var n := |ops| - 1;
      StoreHoldsFirstNewest(ops[..n], id);
      FirstNewestStep(Run(ops[..n]), ops[n], id, Snapshots(ops[..n], id));
    }
  }

  predicate SameContent(a: Agent, b: Agent) {
    DurableOf(a) == DurableOf(b) && a.effectiveConfig == b.effectiveConfig
  }

  predicate Newest(a: Agent, all: set<Agent>) {
    a in all && forall b :: b in all ==> b.lastSeen <= a.lastSeen
  }

  /** All snapshots at the newest event time say the same thing. */
  ghost predicate NewestAgree(all: set<Agent>) {
    forall a, b :: Newest(a, all) && Newest(b, all) ==> SameContent(a, b)
  }

  ghost function SnapshotSet(ops: seq<StoreOp>, id: Id): set<Agent> {
    Elements(Snapshots(ops, id))
  }

  ghost predicate SameRow(db: Db, db': Db, id: Id) {
    && id in db.agents && id in db'.agents
    && db.agents[id].durable == db'.agents[id].durable
    && db.agents[id].updatedAt == db'.agents[id].updatedAt
    && FilesOf(db, id) == FilesOf(db', id)
  }

  /** Any two runs that offer the same snapshots of id, in any order, with any
      repetition and among any other operations, end with the same row and files. */
  ghost predicate Converges(id: Id, all: set<Agent>) {
    forall ops, ops' ::
      Stays(ops, id) && Stays(ops', id) && SnapshotSet(ops, id) == all && SnapshotSet(ops', id) == all
      ==> SameRow(Run(ops), Run(ops'), id)
  }

  lemma ElementsSplit(snaps: seq<Agent>)
    requires snaps != []
    ensures Elements(snaps) == Elements(snaps[..|snaps| - 1]) + {snaps[|snaps| - 1]}
  {
  }

  lemma {:induction false} FirstNewestIsNewest(snaps: seq<Agent>)
    requires snaps != []
    ensures Newest(FirstNewest(snaps), Elements(snaps))
  {
    ElementsSplit(snaps);
    if |snaps| > 1 {
      FirstNewestIsNewest(snaps[..|snaps| - 1]);
    }
  }

  lemma AgreementConverges(ops: seq<StoreOp>, ops': seq<StoreOp>, id: Id, all: set<Agent>)
    requires all != {} && NewestAgree(all)
    requires Stays(ops, id) && Stays(ops', id) && SnapshotSet(ops, id) == all && SnapshotSet(ops', id) == all
    ensures SameRow(Run(ops), Run(ops'), id)
  {
    StoreHoldsFirstNewest(ops, id);
    StoreHoldsFirstNewest(ops', id);
    FirstNewestIsNewest(Snapshots(ops, id));
    FirstNewestIsNewest(Snapshots(ops', id));
    var a, b := FirstNewest(Snapshots(ops, id)), FirstNewest(Snapshots(ops', id));
    assert SameContent(a, b);
    assert ConfigsOf(a) == ConfigsOf(b);
  }

  function Saves(snaps: seq<Agent>): seq<StoreOp> {
    if snaps == [] then [] else Saves(snaps[..|snaps| - 1]) + [SaveAgent(snaps[|snaps| - 1])]
  }

  lemma {:induction false} SavesOffer(snaps: seq<Agent>, id: Id)
    requires forall i :: 0 <= i < |snaps| ==> snaps[i].instanceUID == id
    ensures Snapshots(Saves(snaps), id) == snaps && |Saves(snaps)| == |snaps|
    ensures forall i :: 0 <= i < |snaps| ==> Saves(snaps)[i].SaveAgent?
  {
    if snaps != [] {
      var n := |snaps| - 1;
      SavesOffer(snaps[..n], id);
      assert Saves(snaps)[..n] == Saves(snaps[..n]);
      assert snaps == snaps[..n] + [snaps[n]];
    }
  }

  lemma {:induction false} SavesStay(ops: seq<StoreOp>, id: Id)
    requires forall i :: 0 <= i < |ops| ==> ops[i].SaveAgent?
    ensures Stays(ops, id)
  {
    if ops != [] {
      SavesStay(ops[..|ops| - 1], id);
    }
  }

  ghost function Elements(s: seq<Agent>): set<Agent> {
    set a | a in s
  }

  lemma {:induction false} Enumerate(all: set<Agent>) returns (s: seq<Agent>)
    ensures Elements(s) == all
  {
    if all == {} {
      s := [];
    } else {
      var a :| a in all;
      var t := Enumerate(all - {a});
      s := t + [a];
      assert Elements(s) == Elements(t) + {a};
    }
  }

  lemma {:induction false} NewestFirstWins(a: Agent, rest: seq<Agent>)
    requires forall b :: b in rest ==> b.lastSeen <= a.lastSeen
    ensures FirstNewest([a] + rest) == a
  {
    if rest != [] {
      var n := |rest| - 1;
      assert ([a] + rest)[..|[a] + rest| - 1] == [a] + rest[..n];
      NewestFirstWins(a, rest[..n]);
      assert rest[n] in rest;
    }
  }

  /** A run that offers newest snapshot a before all the others. */
  lemma LeadWith(a: Agent, all: set<Agent>, id: Id) returns (ops: seq<StoreOp>)
    requires Newest(a, all) && forall b :: b in all ==> b.instanceUID == id
    ensures Stays(ops, id) && SnapshotSet(ops, id) == all && Holds(Run(ops), id, a)
  {
    var rest := Enumerate(all);
    forall b | b in rest ensures b in all {
      assert b in Elements(rest);
    }
    var snaps := [a] + rest;
    assert Elements(snaps) == {a} + Elements(rest);
    ops := Saves(snaps);
    SavesOffer(snaps, id);
    SavesStay(ops, id);
    NewestFirstWins(a, rest);
    StoreHoldsFirstNewest(ops, id);
  }

  /** Convergence holds for a set of snapshots exactly when those with the newest
      event time agree; in particular whenever event times differ as contents do. */
  lemma ConvergenceExactly(id: Id, all: set<Agent>)
    requires all != {} && forall a :: a in all ==> a.instanceUID == id
    ensures Converges(id, all) <==> NewestAgree(all)
  {
    if NewestAgree(all) {
      forall ops, ops' | Stays(ops, id) && Stays(ops', id) && SnapshotSet(ops, id) == all && SnapshotSet(ops', id) == all
        ensures SameRow(Run(ops), Run(ops'), id)
      {
        AgreementConverges(ops, ops', id, all);
      }
    } else {
      var a, b :| Newest(a, all) && Newest(b, all) && !SameContent(a, b);
      var ops := LeadWith(a, all, id);
      var ops' := LeadWith(b, all, id);
      if SameRow(Run(ops), Run(ops'), id) {
        BodiesOf(a);
        BodiesOf(b);
        assert false;
      }
    }
  }
}
