/** Write-behind of durable fields. Report, SetConnected and Sweep run under shard
    locks in single steps, marking the dirty set as they go; the flusher drains it,
    reads agents back under the same locks and saves them. Every interleaving of
    these steps is a run. */
module Flush {
  import opened Fleet
  import opened Store
  import opened StoreRuns

  // ----- what is written behind -----

  /** The fields whose every change marks an agent dirty. */
  datatype Reported = Reported(
    identifying: map<string, string>, nonIdentifying: map<string, string>, missing: seq<string>, conflicts: seq<string>,
    healthReported: bool, healthy: bool, healthError: string, healthStatus: string, healthStartTime: Option<nat>,
    healthStatusTime: Option<nat>, packages: map<string, Package>, config: map<string, string>)

  function ReportedOf(a: Agent): Reported {
    Reported(a.identifying, a.nonIdentifying, a.missingAttributes, a.reservedConflicts, a.healthReported, a.healthy,
             a.healthError, a.healthStatus, a.healthStartTime, a.healthStatusTime, a.packages, a.effectiveConfig)
  }

  function Bodies(files: map<string, ConfigRow>): map<string, string> {
    map f | f in files :: files[f].body
  }

  function RowReport(row: AgentRow, files: map<string, ConfigRow>): Reported {
    var d := row.durable;
    Reported(d.identifying, d.nonIdentifying, d.missingAttributes, d.reservedConflicts, d.healthReported, d.healthy,
             d.healthError, d.healthStatus, d.healthStartTime, d.healthStatusTime, d.packages, Bodies(files))
  }

  /** A copy of an agent's reported fields, with the check-in time it was taken at. */
  datatype Copy = Copy(time: Time, report: Reported)

  function CopyOf(a: Agent): Copy {
    Copy(a.lastSeen, ReportedOf(a))
  }

  /** What the store holds for id. */
  function StoredCopy(db: Db, id: Id): Option<Copy> {
    if id in db.agents then Some(Copy(db.agents[id].updatedAt, RowReport(db.agents[id], FilesOf(db, id)))) else None
  }

  lemma SavedCopy(db: Db, a: Agent, id: Id)
    ensures StoredCopy(SaveAgentTx(db, a), id)
         == if id == a.instanceUID && AgentsAccepts(db.agents, a) then Some(CopyOf(a)) else StoredCopy(db, id)
  {
    SaveAgentFiles(db, a, id);
    BodiesOf(a);
    if id in SaveAgentTx(db, a).agents && id in db.agents {
      StepRow(db, StoreOp.SaveAgent(a), id);
    }
  }

  lemma OtherCopy(db: Db, op: StoreOp, id: Id)
    requires op.SaveSession? || op.SoftDelete?
    ensures StoredCopy(Apply(db, op), id) == StoredCopy(db, id)
  {
  }

  // ----- operations under a shard lock -----

  datatype Part = Describes(d: Description) | Heals(h: Health) | Packs(p: map<string, Package>) | Configures(c: map<string, string>)

  function PartsOf(msg: Message): seq<Part> {
    (if msg.description.Some? then [Describes(msg.description.value)] else [])
    + (if msg.health.Some? then [Heals(msg.health.value)] else [])
    + (if msg.packages != map[] then [Packs(msg.packages)] else [])
    + (if msg.config != map[] then [Configures(msg.config)] else [])
  }

  function ApplyPart(cfg: Config, a: Agent, part: Part): Agent {
    match part
    case Describes(d) => TakeDescription(cfg, a, d)
    case Heals(h) => TakeHealth(a, h)
    case Packs(p) => a.(packages := p)
    case Configures(c) => a.(effectiveConfig := c)
  }

  /** Where a report has got to: each part is announced to the dirty set, then applied. */
  datatype Phase = Enter | Announce | Arrive | Parts(parts: seq<Part>) | Applying(part: Part, parts: seq<Part>)

  /** Where a sweep has got to with one agent. */
  datatype Stage = Ready | Lapsed(id: Id) | Judge(id: Id) | Gone(id: Id)

  datatype Holder =
    | Reporting(id: Id, msg: Message, meta: ConnMeta, now: Time, phase: Phase)
    | Flipping(id: Id, connected: bool, announced: bool, done: bool)
    | Sweeping(now: Time, todo: set<Id>, stage: Stage)

  /** locks maps each write-locked shard to the operation holding it. A pass of the flusher
      is active from Drain until its last write; last is the time of each agent's latest report, and
      tried what the latest attempt to save it carried, whether it succeeded or not. */
  datatype System = System(agents: map<Id, Agent>, locks: map<nat, Holder>, dirty: set<Id>,
                           active: bool, todo: set<Id>, tasks: set<Agent>, gone: set<Id>,
                           db: Db, last: map<Id, Time>, tried: map<Id, Reported>)

  datatype Action =
    | LockReport(msg: Message, meta: ConnMeta, now: Time)
    | LockFlip(id: Id, connected: bool)
    | LockSweep(shard: nat, now: Time)
    | Proceed(shard: nat, pick: Id)
    | MarkAgain(shard: nat)
    | Unlock(shard: nat)
    | Drain
    | Get(id: Id)
    | Save(a: Agent)
    | FailSave(a: Agent)
    | SoftDeleteGone(id: Id, at: Time)
    | FailSoftDelete(id: Id)
    | Finish
    | Keepalive(a: Agent)
    | RemoveRows(op: StoreOp)

  predicate Free(slot: Id -> nat, s: System, id: Id) {
    slot(id) !in s.locks
  }

  predicate Completed(h: Holder) {
    match h
    case Reporting(_, _, _, _, phase) => phase == Parts([])
    case Flipping(_, _, _, done) => done
    case Sweeping(_, todo, stage) => todo == {} && stage.Ready?
  }

  ghost predicate Enabled(slot: Id -> nat, s: System, act: Action) {
    match act
    case LockReport(msg, _, now) =>
      msg.uid.Some? && Free(slot, s, msg.uid.value) && (msg.uid.value in s.last ==> s.last[msg.uid.value] < now)
    case LockFlip(id, _) => Free(slot, s, id)
    case LockSweep(k, _) => k !in s.locks
    case Proceed(k, pick) =>
      && k in s.locks && !Completed(s.locks[k])
      && (s.locks[k].Sweeping? && s.locks[k].stage.Ready? ==> pick in s.locks[k].todo)
    case MarkAgain(k) => k in s.locks && s.locks[k].Reporting? && s.locks[k].phase.Parts?
    case Unlock(k) => k in s.locks && Completed(s.locks[k])
    case Drain => !s.active
    case Get(id) => s.active && id in s.todo && Free(slot, s, id)
    case Save(a) => s.active && s.todo == {} && a in s.tasks
    case FailSave(a) => s.active && s.todo == {} && a in s.tasks
    case SoftDeleteGone(id, _) => s.active && s.todo == {} && s.tasks == {} && id in s.gone
    case FailSoftDelete(id) => s.active && s.todo == {} && s.tasks == {} && id in s.gone
    case Finish => s.active && s.todo == {} && s.tasks == {} && s.gone == {}
    case Keepalive(_) => true
    case RemoveRows(op) => op.Purge? || op.Delete?
  }

  function Mark(s: System, id: Id): System {
    s.(dirty := s.dirty + {id})
  }

  function Hold(s: System, k: nat, h: Holder): System {
    s.(locks := s.locks[k := h])
  }

  /** What one step under a lock does to the one agent it is about. */
  datatype Effect = Effect(entry: Option<Agent>, mark: bool, holder: Holder)

  function Entry(s: System, id: Id): Option<Agent> {
    if id in s.agents then Some(s.agents[id]) else None
  }

  function Subject(h: Holder, pick: Id): Id {
    if h.Sweeping? then (if h.stage.Ready? then pick else h.stage.id) else h.id
  }

  function ReportEffect(cfg: Config, entry: Option<Agent>, h: Holder): Effect
    requires h.Reporting? && !Completed(h)
  {
    match h.phase
    case Enter => Effect(Some(if entry.Some? then entry.value else Fresh(h.id, h.now)), false, h.(phase := Announce))
    case Announce => Effect(entry, entry.Some? && !entry.value.connected, h.(phase := Arrive))
    case Arrive =>
      Effect(if entry.Some? then Some(Touch(entry.value, h.msg, h.meta, h.now)) else None, false,
             h.(phase := Parts(PartsOf(h.msg))))
    case Parts(parts) => Effect(entry, true, h.(phase := Applying(parts[0], parts[1..])))
    case Applying(part, parts) =>
      Effect(if entry.Some? then Some(ApplyPart(cfg, entry.value, part)) else None, false, h.(phase := Parts(parts)))
  }

  function FlipEffect(entry: Option<Agent>, h: Holder): Effect
    requires h.Flipping?
  {
    if entry.None? then Effect(entry, false, h.(done := true))
    else if !h.announced && entry.value.connected != h.connected then Effect(entry, true, h.(announced := true))
    else Effect(Some(entry.value.(connected := h.connected)), false, h.(done := true))
  }

  function SweepEffect(cfg: Config, entry: Option<Agent>, h: Holder, pick: Id): Effect
    requires h.Sweeping?
  {
    match h.stage
    case Ready =>
      if entry.Some? && Fleet.Lapses(cfg, entry.value, h.now)
      then Effect(Some(entry.value.(connected := false)), false, h.(stage := Lapsed(pick)))
      else Effect(entry, false, h.(stage := Judge(pick)))
    case Lapsed(id) => Effect(entry, true, h.(stage := Judge(id)))
    case Judge(id) =>
      if entry.Some? && Evicts(cfg, entry.value, h.now)
      then Effect(None, false, h.(stage := Gone(id)))
      else Effect(entry, false, h.(stage := Ready, todo := h.todo - {id}))
    case Gone(id) => Effect(entry, true, h.(stage := Ready, todo := h.todo - {id}))
  }

  function EffectOf(cfg: Config, entry: Option<Agent>, h: Holder, pick: Id): Effect
    requires !Completed(h)
  {
    if h.Reporting? then ReportEffect(cfg, entry, h)
    else if h.Flipping? then FlipEffect(entry, h)
    else SweepEffect(cfg, entry, h, pick)
  }

  function Perform(s: System, k: nat, id: Id, e: Effect): System {
    s.(agents := if e.entry.Some? then s.agents[id := e.entry.value] else s.agents - {id},
       dirty := if e.mark then s.dirty + {id} else s.dirty,
       locks := s.locks[k := e.holder])
  }

  function Attempt(s: System, a: Agent): System {
    s.(tasks := s.tasks - {a}, tried := s.tried[a.instanceUID := ReportedOf(a)])
  }

  ghost function Next(cfg: Config, slot: Id -> nat, s: System, act: Action): System
    requires Enabled(slot, s, act)
  {
    match act
    case LockReport(msg, meta, now) =>
      var id := msg.uid.value;
      Hold(s, slot(id), Reporting(id, msg, meta, now, Enter)).(last := s.last[id := now])
    case LockFlip(id, connected) => Hold(s, slot(id), Flipping(id, connected, false, false))
    case LockSweep(k, now) => Hold(s, k, Sweeping(now, (set id | id in s.agents && slot(id) == k), Ready))
    case Proceed(k, pick) =>
      var h := s.locks[k];
      var id := Subject(h, pick);
      Perform(s, k, id, EffectOf(cfg, Entry(s, id), h, pick))
    case MarkAgain(k) => Mark(s, s.locks[k].id)
    case Unlock(k) => s.(locks := s.locks - {k})
    case Drain => s.(active := true, todo := s.dirty, dirty := {})
    case Get(id) =>
      if id in s.agents
      then s.(todo := s.todo - {id}, tasks := s.tasks + {s.agents[id]})
      else s.(todo := s.todo - {id}, gone := s.gone + {id})
    case Save(a) => Attempt(s, a).(db := SaveAgentTx(s.db, a))
    case FailSave(a) => Attempt(s, a)
    case SoftDeleteGone(id, at) => s.(db := SoftDeleteTx(s.db, id, at), gone := s.gone - {id})
    case FailSoftDelete(id) => s.(gone := s.gone - {id})
    case Finish => s.(active := false)
    case Keepalive(a) => s.(db := SaveSessionTx(s.db, a))
    case RemoveRows(op) => s.(db := Apply(s.db, op))
  }

  // ----- one agent's slice of the system -----

  datatype Role = Bystander | Reporter(now: Time, phase: Phase)

  /** Everything the invariant says of one agent: its registry entry, whether it is marked or
      waiting to be read, the copies in flight and in the store, and any report in progress. */
  datatype Slice = Slice(agent: Option<Agent>, dirty: bool, todo: bool, tasks: set<Copy>, stored: Option<Copy>,
                         last: Option<Time>, tried: Option<Reported>, role: Role)

  ghost function TaskCopies(tasks: set<Agent>, id: Id): set<Copy> {
    set t | t in tasks && t.instanceUID == id :: CopyOf(t)
  }

  ghost function RoleOf(slot: Id -> nat, s: System, id: Id): Role {
    if slot(id) in s.locks && s.locks[slot(id)].Reporting? && s.locks[slot(id)].id == id
    then Reporter(s.locks[slot(id)].now, s.locks[slot(id)].phase) else Bystander
  }

  ghost function SliceOf(slot: Id -> nat, s: System, id: Id): Slice {
    Slice(Entry(s, id), id in s.dirty, id in s.todo,
          TaskCopies(s.tasks, id), StoredCopy(s.db, id), if id in s.last then Some(s.last[id]) else None,
          if id in s.tried then Some(s.tried[id]) else None, RoleOf(slot, s, id))
  }

  ghost predicate CopiesBefore(sl: Slice, time: Time) {
    (forall c :: c in sl.tasks ==> c.time < time) && (sl.stored.Some? ==> sl.stored.value.time < time)
  }

  ghost predicate CopiesUpTo(sl: Slice, time: Time) {
    (forall c :: c in sl.tasks ==> c.time <= time) && (sl.stored.Some? ==> sl.stored.value.time <= time)
  }

  /** A copy taken at the agent's current check-in time is a copy of its current report. */
  ghost predicate CurrentCopiesAgree(sl: Slice, a: Agent) {
    && CopiesUpTo(sl, a.lastSeen)
    && (forall c :: c in sl.tasks && c.time == a.lastSeen ==> c.report == ReportedOf(a))
    && (sl.stored.Some? && sl.stored.value.time == a.lastSeen ==> sl.stored.value.report == ReportedOf(a))
  }

  /** The agent's report has been handed to the store or is certain to be: it is marked or waiting to be
      read, or every copy in flight agrees with it, or the latest attempt to save it did. */
  ghost predicate Safe(sl: Slice) {
    sl.agent.Some? ==>
      || sl.dirty || sl.todo
      || if sl.tasks == {} then sl.tried == Some(ReportedOf(sl.agent.value))
         else forall c :: c in sl.tasks ==> c.report == ReportedOf(sl.agent.value)
  }

  /** There is at most one copy in flight; the stored one is not newer, and agrees with it if equally old. */
  ghost predicate InOrder(sl: Slice) {
    && (sl.todo ==> sl.tasks == {})
    && (forall c, c' :: c in sl.tasks && c' in sl.tasks ==> c == c')
    && (forall c :: c in sl.tasks && sl.stored.Some? ==>
          sl.stored.value.time <= c.time && (sl.stored.value.time == c.time ==> sl.stored.value.report == c.report))
  }

  ghost predicate TimesOk(sl: Slice) {
    && (sl.tasks != {} || sl.stored.Some? ==> sl.last.Some? && CopiesUpTo(sl, sl.last.value))
    && match sl.role
       case Bystander =>
         sl.agent.Some? ==>
           sl.last.Some? && sl.agent.value.lastSeen <= sl.last.value && CurrentCopiesAgree(sl, sl.agent.value)
       case Reporter(now, phase) =>
         && sl.last == Some(now) && CopiesBefore(sl, now)
         && (!phase.Enter? ==> sl.agent.Some?)
         && (phase.Parts? || phase.Applying? ==> sl.agent.value.lastSeen == now)
  }

  ghost predicate SafeOk(sl: Slice) {
    if sl.role.Reporter? && sl.role.phase.Announce? then Safe(sl) || (sl.agent.Some? && !sl.agent.value.connected)
    else if sl.role.Reporter? && sl.role.phase.Applying? then sl.dirty || sl.todo
    else Safe(sl)
  }

  ghost predicate SliceOk(sl: Slice) {
    TimesOk(sl) && SafeOk(sl) && InOrder(sl)
  }

  /** A lock holder works only on agents of its own shard. */
  ghost predicate HolderOk(slot: Id -> nat, h: Holder, k: nat) {
    match h
    case Reporting(id, _, _, _, _) => slot(id) == k
    case Flipping(id, _, _, _) => slot(id) == k
    case Sweeping(_, todo, stage) =>
      (forall id :: id in todo ==> slot(id) == k) && (!stage.Ready? ==> slot(stage.id) == k)
  }

  ghost predicate Global(slot: Id -> nat, s: System) {
    && Keyed(s.agents)
    && (forall k :: k in s.locks ==> HolderOk(slot, s.locks[k], k))
    && (!s.active ==> s.todo == {} && s.tasks == {} && s.gone == {})
  }

  ghost predicate Inv(slot: Id -> nat, s: System) {
    Global(slot, s) && forall id :: SliceOk(SliceOf(slot, s, id))
  }

  // ----- every step keeps the invariant -----

  lemma MarkKeeps(sl: Slice)
    requires SliceOk(sl)
    ensures SliceOk(sl.(dirty := true))
  {
  }

  /** A change of liveness alone is invisible to the invariant. */
  lemma ConnectedKeeps(sl: Slice, connected: bool)
    requires SliceOk(sl) && sl.agent.Some? && sl.role.Bystander?
    ensures SliceOk(sl.(agent := Some(sl.agent.value.(connected := connected))))
  {
  }

  lemma RemovedKeeps(sl: Slice)
    requires SliceOk(sl) && sl.role.Bystander?
    ensures SliceOk(sl.(agent := None))
  {
  }

  lemma PartKeepsTime(cfg: Config, a: Agent, part: Part)
    ensures ApplyPart(cfg, a, part).lastSeen == a.lastSeen && ApplyPart(cfg, a, part).instanceUID == a.instanceUID
  {
  }

  lemma EnterKeeps(sl: Slice, id: Id)
    requires SliceOk(sl) && sl.role.Reporter? && sl.role.phase.Enter?
    ensures SliceOk(sl.(agent := Some(if sl.agent.Some? then sl.agent.value else Fresh(id, sl.role.now)),
                        role := sl.role.(phase := Announce)))
  {
  }

  lemma AnnounceKeeps(sl: Slice)
    requires SliceOk(sl) && sl.role.Reporter? && sl.role.phase.Announce?
    ensures SliceOk(sl.(dirty := sl.dirty || !sl.agent.value.connected, role := sl.role.(phase := Arrive)))
  {
  }

  lemma ArriveKeeps(sl: Slice, msg: Message, meta: ConnMeta)
    requires SliceOk(sl) && sl.role.Reporter? && sl.role.phase.Arrive?
    ensures SliceOk(sl.(agent := Some(Touch(sl.agent.value, msg, meta, sl.role.now)),
                        role := sl.role.(phase := Parts(PartsOf(msg)))))
  {
  }

  lemma PartsKeeps(sl: Slice, part: Part, parts: seq<Part>)
    requires SliceOk(sl) && sl.role.Reporter? && sl.role.phase.Parts?
    ensures SliceOk(sl.(dirty := true, role := sl.role.(phase := Applying(part, parts))))
  {
  }

  lemma ApplyingKeeps(cfg: Config, sl: Slice)
    requires SliceOk(sl) && sl.role.Reporter? && sl.role.phase.Applying?
    ensures SliceOk(sl.(agent := Some(ApplyPart(cfg, sl.agent.value, sl.role.phase.part)),
                        role := sl.role.(phase := Parts(sl.role.phase.parts))))
  {
    PartKeepsTime(cfg, sl.agent.value, sl.role.phase.part);
  }

  function RoleIn(h: Holder, id: Id): Role {
    if h.Reporting? && h.id == id then Reporter(h.now, h.phase) else Bystander
  }

  /** A step under a lock touches the slice of its subject and no other. */
  lemma PerformSlice(slot: Id -> nat, s: System, k: nat, id: Id, e: Effect, x: Id)
    requires slot(id) == k && k in s.locks
    requires x != id ==> RoleIn(e.holder, x) == RoleIn(s.locks[k], x)
    ensures var sl := SliceOf(slot, s, x);
            SliceOf(slot, Perform(s, k, id, e), x)
            == if x == id then sl.(agent := e.entry, dirty := sl.dirty || e.mark, role := RoleIn(e.holder, x)) else sl
  {
  }

  /** Flips and sweeps only change liveness or remove the agent. */
  lemma BystanderEffect(cfg: Config, entry: Option<Agent>, h: Holder, pick: Id)
    requires !Completed(h) && !h.Reporting?
    ensures var e := EffectOf(cfg, entry, h, pick);
            !e.holder.Reporting?
            && (e.entry.Some? ==> entry.Some? && e.entry.value == entry.value.(connected := e.entry.value.connected))
  {
  }

  lemma BystanderEffectKeeps(sl: Slice, entry: Option<Agent>, mark: bool)
    requires SliceOk(sl) && sl.role.Bystander?
    requires entry.Some? ==> sl.agent.Some? && entry.value == sl.agent.value.(connected := entry.value.connected)
    ensures SliceOk(sl.(agent := entry, dirty := sl.dirty || mark))
  {
    if entry.None? {
      RemovedKeeps(sl);
    } else {
      ConnectedKeeps(sl, entry.value.connected);
    }
    MarkKeeps(sl.(agent := entry));
  }

  lemma ReportEffectKeeps(cfg: Config, sl: Slice, h: Holder)
    requires SliceOk(sl) && !Completed(h) && h.Reporting? && sl.role == Reporter(h.now, h.phase)
    ensures var e := ReportEffect(cfg, sl.agent, h);
            SliceOk(sl.(agent := e.entry, dirty := sl.dirty || e.mark, role := RoleIn(e.holder, h.id)))
  {
    match h.phase
    case Enter => EnterKeeps(sl, h.id);
    case Announce => AnnounceKeeps(sl);
    case Arrive => ArriveKeeps(sl, h.msg, h.meta);
    case Parts(parts) => PartsKeeps(sl, parts[0], parts[1..]);
    case Applying(_, _) => ApplyingKeeps(cfg, sl);
  }

  lemma ProceedKeeps(cfg: Config, slot: Id -> nat, s: System, k: nat, pick: Id, x: Id)
    requires Enabled(slot, s, Proceed(k, pick)) && HolderOk(slot, s.locks[k], k)
    requires SliceOk(SliceOf(slot, s, x))
    ensures SliceOk(SliceOf(slot, Next(cfg, slot, s, Proceed(k, pick)), x))
  {
    var h, sl := s.locks[k], SliceOf(slot, s, x);
    var id := Subject(h, pick);
    var e := EffectOf(cfg, Entry(s, id), h, pick);
    if x == id {
      if h.Reporting? {
        ReportEffectKeeps(cfg, sl, h);
      } else {
        BystanderEffect(cfg, sl.agent, h, pick);
        BystanderEffectKeeps(sl, e.entry, e.mark);
      }
    }
    EffectRoles(cfg, Entry(s, id), h, pick, x);
    PerformSlice(slot, s, k, id, e, x);
  }

  lemma EffectRoles(cfg: Config, entry: Option<Agent>, h: Holder, pick: Id, x: Id)
    requires !Completed(h)
    ensures x != Subject(h, pick) ==> RoleIn(EffectOf(cfg, entry, h, pick).holder, x) == RoleIn(h, x)
    ensures !h.Reporting? ==> RoleIn(EffectOf(cfg, entry, h, pick).holder, x) == Bystander
  {
  }

  // ----- locking and unlocking -----

  lemma LockReportKeeps(cfg: Config, slot: Id -> nat, s: System, act: Action, x: Id)
    requires act.LockReport? && Enabled(slot, s, act) && SliceOk(SliceOf(slot, s, x))
    ensures SliceOk(SliceOf(slot, Next(cfg, slot, s, act), x))
  {
    var sl, sl' := SliceOf(slot, s, x), SliceOf(slot, Next(cfg, slot, s, act), x);
    if x == act.msg.uid.value {
      assert sl' == sl.(last := Some(act.now), role := Reporter(act.now, Enter));
    } else {
      assert sl' == sl;
    }
  }

  lemma LockOtherKeeps(cfg: Config, slot: Id -> nat, s: System, act: Action, x: Id)
    requires (act.LockFlip? || act.LockSweep?) && Enabled(slot, s, act)
    ensures SliceOf(slot, Next(cfg, slot, s, act), x) == SliceOf(slot, s, x)
  {
  }

  lemma UnlockSlice(cfg: Config, slot: Id -> nat, s: System, k: nat, x: Id)
    requires Enabled(slot, s, Unlock(k))
    ensures var sl, sl' := SliceOf(slot, s, x), SliceOf(slot, Next(cfg, slot, s, Unlock(k)), x);
            sl' == sl || (sl' == sl.(role := Bystander) && sl.role.Reporter? && sl.role.phase == Parts([]))
  {
  }

  /** A report that has applied all its parts leaves a settled agent. */
  lemma ReporterSettles(sl: Slice)
    requires SliceOk(sl) && sl.role.Reporter? && sl.role.phase == Parts([])
    ensures SliceOk(sl.(role := Bystander))
  {
  }

  lemma UnlockKeeps(cfg: Config, slot: Id -> nat, s: System, k: nat, x: Id)
    requires Enabled(slot, s, Unlock(k)) && SliceOk(SliceOf(slot, s, x))
    ensures SliceOk(SliceOf(slot, Next(cfg, slot, s, Unlock(k)), x))
  {
    var sl := SliceOf(slot, s, x);
    UnlockSlice(cfg, slot, s, k, x);
    if sl.role.Reporter? && sl.role.phase == Parts([]) {
      ReporterSettles(sl);
    }
  }

  lemma MarkAgainKeeps(cfg: Config, slot: Id -> nat, s: System, k: nat, x: Id)
    requires Enabled(slot, s, MarkAgain(k)) && SliceOk(SliceOf(slot, s, x))
    ensures SliceOk(SliceOf(slot, Next(cfg, slot, s, MarkAgain(k)), x))
  {
    var sl, sl' := SliceOf(slot, s, x), SliceOf(slot, Next(cfg, slot, s, MarkAgain(k)), x);
    assert sl' == if x == s.locks[k].id then sl.(dirty := true) else sl;
    MarkKeeps(sl);
  }

  // ----- the flusher -----

  lemma DrainKeeps(cfg: Config, slot: Id -> nat, s: System, x: Id)
    requires Global(slot, s) && Enabled(slot, s, Drain) && SliceOk(SliceOf(slot, s, x))
    ensures SliceOk(SliceOf(slot, Next(cfg, slot, s, Drain), x))
  {
    var sl, sl' := SliceOf(slot, s, x), SliceOf(slot, Next(cfg, slot, s, Drain), x);
    assert sl.tasks == {} && !sl.todo;
    assert sl' == sl.(dirty := false, todo := sl.dirty);
  }

  /** Reading an agent back copies exactly what the registry shows. */
  lemma ReadSlice(sl: Slice)
    requires SliceOk(sl) && sl.role.Bystander? && sl.todo && sl.agent.Some?
    ensures SliceOk(sl.(todo := false, tasks := {CopyOf(sl.agent.value)}))
  {
  }

  lemma SaveSlice(sl: Slice, sl': Slice, c: Copy)
    requires SliceOk(sl) && c in sl.tasks && sl'.tasks <= sl.tasks <= sl'.tasks + {c}
    requires sl' == sl.(tasks := sl'.tasks, tried := Some(c.report), stored := sl'.stored)
    requires sl'.stored == sl.stored || sl'.stored == Some(c)
    ensures SliceOk(sl')
  {
  }

  lemma TaskDone(tasks: set<Agent>, a: Agent, id: Id)
    requires a in tasks
    ensures TaskCopies(tasks - {a}, id) <= TaskCopies(tasks, id)
    ensures a.instanceUID == id ==> CopyOf(a) in TaskCopies(tasks, id)
    ensures a.instanceUID == id ==> TaskCopies(tasks, id) <= TaskCopies(tasks - {a}, id) + {CopyOf(a)}
    ensures a.instanceUID != id ==> TaskCopies(tasks - {a}, id) == TaskCopies(tasks, id)
  {
  }

  lemma AttemptedSlice(slot: Id -> nat, s: System, a: Agent, db: Db, x: Id)
    ensures var sl, sl' := SliceOf(slot, s, x), SliceOf(slot, Attempt(s, a).(db := db), x);
            sl' == sl.(tasks := TaskCopies(s.tasks - {a}, x), stored := StoredCopy(db, x),
                       tried := if x == a.instanceUID then Some(ReportedOf(a)) else sl.tried)
  {
  }

  lemma SaveKeeps(cfg: Config, slot: Id -> nat, s: System, a: Agent, x: Id)
    requires Enabled(slot, s, Save(a)) && SliceOk(SliceOf(slot, s, x))
    ensures SliceOk(SliceOf(slot, Next(cfg, slot, s, Save(a)), x))
  {
    AttemptKeeps(slot, s, a, SaveAgentTx(s.db, a), x);
  }

  /** An attempt to save an agent, whether it went through or not. */
  lemma AttemptKeeps(slot: Id -> nat, s: System, a: Agent, db: Db, x: Id)
    requires a in s.tasks && SliceOk(SliceOf(slot, s, x)) && (db == SaveAgentTx(s.db, a) || db == s.db)
    ensures SliceOk(SliceOf(slot, Attempt(s, a).(db := db), x))
  {
    var sl, sl' := SliceOf(slot, s, x), SliceOf(slot, Attempt(s, a).(db := db), x);
    SavedCopy(s.db, a, x);
    TaskDone(s.tasks, a, x);
    AttemptedSlice(slot, s, a, db, x);
    if x == a.instanceUID {
      SaveSlice(sl, sl', CopyOf(a));
    } else {
      assert sl' == sl;
    }
  }

  lemma FailSaveKeeps(cfg: Config, slot: Id -> nat, s: System, a: Agent, x: Id)
    requires Enabled(slot, s, FailSave(a)) && SliceOk(SliceOf(slot, s, x))
    ensures SliceOk(SliceOf(slot, Next(cfg, slot, s, FailSave(a)), x))
  {
    AttemptKeeps(slot, s, a, s.db, x);
    assert Attempt(s, a).(db := s.db) == Attempt(s, a);
  }

  lemma GotSlice(slot: Id -> nat, s: System, id: Id, x: Id)
    requires id in s.agents && s.agents[id].instanceUID == id
    ensures var sl := SliceOf(slot, s, x);
            SliceOf(slot, s.(todo := s.todo - {id}, tasks := s.tasks + {s.agents[id]}), x)
            == if x == id then sl.(todo := false, tasks := sl.tasks + {CopyOf(s.agents[id])}) else sl
  {
  }

  lemma MissedSlice(slot: Id -> nat, s: System, id: Id, x: Id)
    requires id !in s.agents
    ensures var sl := SliceOf(slot, s, x);
            SliceOf(slot, s.(todo := s.todo - {id}, gone := s.gone + {id}), x) == if x == id then sl.(todo := false) else sl
  {
  }

  lemma GetKeeps(cfg: Config, slot: Id -> nat, s: System, id: Id, x: Id)
    requires Enabled(slot, s, Get(id)) && Keyed(s.agents) && SliceOk(SliceOf(slot, s, x))
    ensures SliceOk(SliceOf(slot, Next(cfg, slot, s, Get(id)), x))
  {
    var sl := SliceOf(slot, s, x);
    if id !in s.agents {
      MissedSlice(slot, s, id, x);
    } else {
      GotSlice(slot, s, id, x);
      if x == id {
        ReadSlice(sl);
        assert sl.tasks + {CopyOf(s.agents[id])} == {CopyOf(s.agents[id])};
      }
    }
  }

  lemma StoreOtherKeeps(cfg: Config, slot: Id -> nat, s: System, act: Action, x: Id)
    requires (act.SoftDeleteGone? || act.FailSoftDelete? || act.Keepalive? || act.Finish?) && Enabled(slot, s, act)
    ensures SliceOf(slot, Next(cfg, slot, s, act), x) == SliceOf(slot, s, x)
  {
    if act.SoftDeleteGone? {
      OtherCopy(s.db, SoftDelete(act.id, act.at), x);
    } else if act.Keepalive? {
      OtherCopy(s.db, SaveSession(act.a), x);
    }
  }

  /** Removing a row, by purge or by hand, leaves other agents' rows and files alone. */
  lemma RemovedCopy(db: Db, op: StoreOp, id: Id)
    requires op.Purge? || op.Delete?
    ensures StoredCopy(Apply(db, op), id) == if id in Apply(db, op).agents then StoredCopy(db, id) else None
  {
    if id in Apply(db, op).agents {
      StepFiles(db, op, id);
      StepRow(db, op, id);
    }
  }

  lemma LostSlice(sl: Slice)
    requires SliceOk(sl)
    ensures SliceOk(sl.(stored := None))
  {
  }

  lemma RemovedSlice(cfg: Config, slot: Id -> nat, s: System, op: StoreOp, x: Id)
    requires Enabled(slot, s, RemoveRows(op))
    ensures var sl := SliceOf(slot, s, x);
            SliceOf(slot, Next(cfg, slot, s, RemoveRows(op)), x)
            == if x in Apply(s.db, op).agents then sl else sl.(stored := None)
  {
    RemovedCopy(s.db, op, x);
  }

  lemma RemoveRowsKeeps(cfg: Config, slot: Id -> nat, s: System, op: StoreOp, x: Id)
    requires Enabled(slot, s, RemoveRows(op)) && SliceOk(SliceOf(slot, s, x))
    ensures SliceOk(SliceOf(slot, Next(cfg, slot, s, RemoveRows(op)), x))
  {
    RemovedSlice(cfg, slot, s, op, x);
    LostSlice(SliceOf(slot, s, x));
  }

  lemma StepKeepsSlice(cfg: Config, slot: Id -> nat, s: System, act: Action, x: Id)
    requires Inv(slot, s) && Enabled(slot, s, act)
    ensures SliceOk(SliceOf(slot, Next(cfg, slot, s, act), x))
  {
    assert SliceOk(SliceOf(slot, s, x));
    match act
    case LockReport(_, _, _) => LockReportKeeps(cfg, slot, s, act, x);
    case LockFlip(_, _) => LockOtherKeeps(cfg, slot, s, act, x);
    case LockSweep(_, _) => LockOtherKeeps(cfg, slot, s, act, x);
    case Proceed(k, pick) => ProceedKeeps(cfg, slot, s, k, pick, x);
    case MarkAgain(k) => MarkAgainKeeps(cfg, slot, s, k, x);
    case Unlock(k) => UnlockKeeps(cfg, slot, s, k, x);
    case Drain => DrainKeeps(cfg, slot, s, x);
    case Get(id) => GetKeeps(cfg, slot, s, id, x);
    case Save(a) => SaveKeeps(cfg, slot, s, a, x);
    case FailSave(a) => FailSaveKeeps(cfg, slot, s, a, x);
    case SoftDeleteGone(_, _) => StoreOtherKeeps(cfg, slot, s, act, x);
    case FailSoftDelete(_) => StoreOtherKeeps(cfg, slot, s, act, x);
    case Finish => StoreOtherKeeps(cfg, slot, s, act, x);
    case Keepalive(_) => StoreOtherKeeps(cfg, slot, s, act, x);
    case RemoveRows(op) => RemoveRowsKeeps(cfg, slot, s, op, x);
  }

  // ----- the global part -----

  lemma EffectKeepsUid(cfg: Config, entry: Option<Agent>, h: Holder, pick: Id)
    requires !Completed(h) && (entry.Some? ==> entry.value.instanceUID == Subject(h, pick))
    ensures var e := EffectOf(cfg, entry, h, pick); e.entry.Some? ==> e.entry.value.instanceUID == Subject(h, pick)
  {
    if h.Reporting? && h.phase.Applying? && entry.Some? {
      PartKeepsTime(cfg, entry.value, h.phase.part);
    }
  }

  lemma EffectHolderOk(cfg: Config, slot: Id -> nat, entry: Option<Agent>, h: Holder, pick: Id, k: nat)
    requires !Completed(h) && HolderOk(slot, h, k) && slot(Subject(h, pick)) == k
    ensures HolderOk(slot, EffectOf(cfg, entry, h, pick).holder, k)
  {
  }

  lemma ProceedGlobal(cfg: Config, slot: Id -> nat, s: System, k: nat, pick: Id)
    requires Global(slot, s) && Enabled(slot, s, Proceed(k, pick))
    ensures Global(slot, Next(cfg, slot, s, Proceed(k, pick)))
  {
    var h := s.locks[k];
    var id := Subject(h, pick);
    assert HolderOk(slot, h, k);
    EffectKeepsUid(cfg, Entry(s, id), h, pick);
    EffectHolderOk(cfg, slot, Entry(s, id), h, pick, k);
  }

  lemma StepKeepsGlobal(cfg: Config, slot: Id -> nat, s: System, act: Action)
    requires Global(slot, s) && Enabled(slot, s, act)
    ensures Global(slot, Next(cfg, slot, s, act))
  {
    if act.Proceed? {
      ProceedGlobal(cfg, slot, s, act.shard, act.pick);
    } else {
      var s' := Next(cfg, slot, s, act);
      forall j | j in s'.locks ensures HolderOk(slot, s'.locks[j], j) {
      }
    }
  }

  // ----- the single steps add up to the atomic report -----

  function FoldParts(cfg: Config, a: Agent, parts: seq<Part>): Agent
    decreases |parts|
  {
    if parts == [] then a else FoldParts(cfg, ApplyPart(cfg, a, parts[0]), parts[1..])
  }

  lemma {:induction false} FoldPartsConcat(cfg: Config, a: Agent, ps: seq<Part>, qs: seq<Part>)
    ensures FoldParts(cfg, a, ps + qs) == FoldParts(cfg, FoldParts(cfg, a, ps), qs)
    decreases |ps|
  {
    if ps == [] {
      assert ps + qs == qs;
    } else {
      assert (ps + qs)[1..] == ps[1..] + qs;
      FoldPartsConcat(cfg, ApplyPart(cfg, a, ps[0]), ps[1..], qs);
    }
  }

  lemma FoldOnePart(cfg: Config, a: Agent, part: Part)
    ensures FoldParts(cfg, a, [part]) == ApplyPart(cfg, a, part)
  {
  }

  lemma PartsFold(cfg: Config, a: Agent, msg: Message)
    ensures FoldParts(cfg, a, PartsOf(msg))
         == FoldReports(if msg.description.Some? then TakeDescription(cfg, a, msg.description.value) else a, msg)
  {
    var ps1 := if msg.description.Some? then [Describes(msg.description.value)] else [];
    var ps2 := if msg.health.Some? then [Heals(msg.health.value)] else [];
    var ps3 := if msg.packages != map[] then [Packs(msg.packages)] else [];
    var ps4 := if msg.config != map[] then [Configures(msg.config)] else [];
    var a1 := FoldParts(cfg, a, ps1);
    var a2 := FoldParts(cfg, a1, ps2);
    var a3 := FoldParts(cfg, a2, ps3);
    FoldPartsConcat(cfg, a, ps1 + ps2 + ps3, ps4);
    FoldPartsConcat(cfg, a, ps1 + ps2, ps3);
    FoldPartsConcat(cfg, a, ps1, ps2);
    if msg.description.Some? { FoldOnePart(cfg, a, ps1[0]); }
    if msg.health.Some? { FoldOnePart(cfg, a1, ps2[0]); }
    if msg.packages != map[] { FoldOnePart(cfg, a2, ps3[0]); }
    if msg.config != map[] { FoldOnePart(cfg, a3, ps4[0]); }
  }

  function Rank(phase: Phase): nat {
    match phase
    case Enter => 3
    case Announce => 2
    case Arrive => 1
    case Parts(_) => 0
    case Applying(_, _) => 0
  }

  function PartsLeft(phase: Phase): nat {
    match phase
    case Parts(parts) => 2 * |parts|
    case Applying(_, parts) => 2 * |parts| + 1
    case _ => 0
  }

  /** The registry entry when a report lets go of its lock, with nobody else allowed in between. */
  function Complete(cfg: Config, entry: Option<Agent>, h: Holder): Option<Agent>
    requires h.Reporting?
    decreases Rank(h.phase), PartsLeft(h.phase)
  {
    if Completed(h) then entry
    else var e := ReportEffect(cfg, entry, h); Complete(cfg, e.entry, e.holder)
  }

  lemma {:induction false} CompleteParts(cfg: Config, a: Agent, h: Holder)
    requires h.Reporting? && h.phase.Parts?
    ensures Complete(cfg, Some(a), h) == Some(FoldParts(cfg, a, h.phase.parts))
    decreases |h.phase.parts|
  {
    if h.phase.parts != [] {
      var h1 := ReportEffect(cfg, Some(a), h).holder;
      var e2 := ReportEffect(cfg, Some(a), h1);
      CompleteParts(cfg, e2.entry.value, e2.holder);
    }
  }

  /** Taken under its lock, step by step, a report does exactly what Report does at once. */
  lemma StepsAddUpToReport(cfg: Config, entry: Option<Agent>, id: Id, msg: Message, meta: ConnMeta, now: Time)
    ensures Complete(cfg, entry, Reporting(id, msg, meta, now, Enter))
         == Some(Fold(cfg, if entry.Some? then entry.value else Fresh(id, now), msg, meta, now))
  {
    var known := if entry.Some? then entry.value else Fresh(id, now);
    var h0 := Reporting(id, msg, meta, now, Enter);
    var h1, h2, h3 := h0.(phase := Announce), h0.(phase := Arrive), h0.(phase := Parts(PartsOf(msg)));
    var a := Touch(known, msg, meta, now);
    assert Complete(cfg, entry, h0) == Complete(cfg, Some(known), h1);
    assert Complete(cfg, Some(known), h1) == Complete(cfg, Some(known), h2);
    assert Complete(cfg, Some(known), h2) == Complete(cfg, Some(a), h3);
    CompleteParts(cfg, a, h3);
    PartsFold(cfg, a, msg);
  }

  // ----- and so do those of a disconnect and of a sweep -----

  /** The registry entry when a disconnect or connect lets go of its lock. */
  function CompleteFlip(entry: Option<Agent>, h: Holder): Option<Agent>
    requires h.Flipping?
    decreases if h.done then 0 else if h.announced then 1 else 2
  {
    if h.done then entry
    else var e := FlipEffect(entry, h); CompleteFlip(e.entry, e.holder)
  }

  function Lookup(agents: map<Id, Agent>, id: Id): Option<Agent> {
    if id in agents then Some(agents[id]) else None
  }

  lemma StepsAddUpToSetConnected(cfg: Config, agents: map<Id, Agent>, id: Id, connected: bool)
    ensures CompleteFlip(Lookup(agents, id), Flipping(id, connected, false, false))
         == Lookup(ApplyOp(cfg, agents, Op.SetConnected(id, connected)), id)
  {
    var entry, h := Lookup(agents, id), Flipping(id, connected, false, false);
    assert CompleteFlip(entry, h.(done := true)) == entry;
    if entry.Some? {
      var flipped := Some(entry.value.(connected := connected));
      assert CompleteFlip(flipped, h.(done := true)) == flipped;
      assert CompleteFlip(flipped, h.(announced := true, done := true)) == flipped;
      assert CompleteFlip(entry, h.(announced := true)) == flipped;
    }
  }

  function StageRank(stage: Stage): nat {
    match stage case Lapsed(_) => 3 case Judge(_) => 2 case Gone(_) => 1 case Ready => 0
  }

  /** The entry of the agent a sweep is dealing with, when it turns to the next. */
  function Settle(cfg: Config, entry: Option<Agent>, h: Holder): Option<Agent>
    requires h.Sweeping?
    decreases StageRank(h.stage)
  {
    if h.stage.Ready? then entry
    else var e := SweepEffect(cfg, entry, h, h.stage.id); Settle(cfg, e.entry, e.holder)
  }

  /** One agent dealt with, from picking it on. */
  function SweepOne(cfg: Config, entry: Option<Agent>, now: Time, todo: set<Id>, id: Id): Option<Agent> {
    var e := SweepEffect(cfg, entry, Sweeping(now, todo, Ready), id);
    Settle(cfg, e.entry, e.holder)
  }

  lemma SweepOneIs(cfg: Config, entry: Option<Agent>, now: Time, todo: set<Id>, id: Id)
    ensures SweepOne(cfg, entry, now, todo, id)
         == if entry.None? || Evicts(cfg, entry.value, now) then None else Some(Fleet.Lapse(cfg, entry.value, now))
  {
    var lapsed := if entry.Some? then Some(Fleet.Lapse(cfg, entry.value, now)) else None;
    var h := Sweeping(now, todo, Judge(id));
    assert Settle(cfg, None, h.(stage := Ready, todo := todo - {id})) == None;
    assert Settle(cfg, None, h.(stage := Gone(id))) == None;
    assert Settle(cfg, lapsed, h.(stage := Ready, todo := todo - {id})) == lapsed;
    assert Settle(cfg, lapsed, h)
        == if entry.None? || Evicts(cfg, entry.value, now) then None else lapsed;
    assert Settle(cfg, lapsed, h.(stage := Lapsed(id))) == Settle(cfg, lapsed, h);
  }

  /** A shard's agents once a sweep has dealt with those in order, one after another. */
  function SweepInOrder(cfg: Config, agents: map<Id, Agent>, now: Time, order: seq<Id>): map<Id, Agent> {
    if order == [] then agents
    else
      var mid, id := SweepInOrder(cfg, agents, now, order[..|order| - 1]), order[|order| - 1];
      var entry := SweepOne(cfg, Lookup(mid, id), now, {id}, id);
      if entry.Some? then mid[id := entry.value] else mid - {id}
  }

  lemma {:induction false} SweptInOrder(cfg: Config, agents: map<Id, Agent>, now: Time, order: seq<Id>, x: Id)
    ensures Lookup(SweepInOrder(cfg, agents, now, order), x)
         == if x in order then SweepOne(cfg, Lookup(agents, x), now, {x}, x) else Lookup(agents, x)
  {
    if order != [] {
      var init, id := order[..|order| - 1], order[|order| - 1];
      SweptInOrder(cfg, agents, now, init, x);
      SweepOneIs(cfg, Lookup(agents, x), now, {x}, x);
      SweepOneIs(cfg, Lookup(SweepInOrder(cfg, agents, now, init), x), now, {x}, x);
    }
  }

  /** Whatever order a sweep picks the agents of a shard in, its single steps add up to Sweep. */
  lemma StepsAddUpToSweep(cfg: Config, agents: map<Id, Agent>, now: Time, order: seq<Id>)
    requires forall id :: id in agents ==> id in order
    ensures SweepInOrder(cfg, agents, now, order) == ApplyOp(cfg, agents, Op.Sweep(now))
  {
    var swept, after := SweepInOrder(cfg, agents, now, order), ApplyOp(cfg, agents, Op.Sweep(now));
    forall x ensures Lookup(swept, x) == Lookup(after, x) {
      SweptInOrder(cfg, agents, now, order, x);
      SweepOneIs(cfg, Lookup(agents, x), now, {x}, x);
    }
    SameLookups(swept, after);
  }

  lemma SameLookups(m: map<Id, Agent>, n: map<Id, Agent>)
    requires forall x :: Lookup(m, x) == Lookup(n, x)
    ensures m == n
  {
    forall x ensures x in m <==> x in n {
      assert Lookup(m, x) == Lookup(n, x);
    }
    forall x | x in m ensures m[x] == n[x] {
      assert Lookup(m, x) == Lookup(n, x);
    }
  }

  // ----- no lost update -----

  const START := System(map[], map[], {}, false, {}, {}, {}, EMPTY_DB, map[], map[])

  ghost predicate IsRun(cfg: Config, slot: Id -> nat, states: seq<System>, acts: seq<Action>) {
    && |states| == |acts| + 1
    && states[0] == START
    && (forall i :: 0 <= i < |acts| ==>
          Enabled(slot, states[i], acts[i]) && states[i + 1] == Next(cfg, slot, states[i], acts[i]))
  }

  lemma {:induction false} RunKeepsInv(cfg: Config, slot: Id -> nat, states: seq<System>, acts: seq<Action>, n: nat)
    requires IsRun(cfg, slot, states, acts) && n < |states|
    ensures Inv(slot, states[n])
  {
    if n > 0 {
      RunKeepsInv(cfg, slot, states, acts, n - 1);
      assert states[n - 1 + 1] == Next(cfg, slot, states[n - 1], acts[n - 1]);
      StepKeepsGlobal(cfg, slot, states[n - 1], acts[n - 1]);
      forall x ensures SliceOk(SliceOf(slot, states[n], x)) {
        StepKeepsSlice(cfg, slot, states[n - 1], acts[n - 1], x);
      }
    }
  }

  /** Nothing marked and no pass running. */
  predicate Quiescent(s: System) {
    s.dirty == {} && !s.active
  }

  /** The row of id holds this report. */
  ghost predicate RowHolds(db: Db, id: Id, report: Reported) {
    id in db.agents && RowReport(db.agents[id], FilesOf(db, id)) == report
  }

  /** This step removes the row of id: a purge that finds it soft-deleted before the cutoff, or a delete. */
  ghost predicate RemovesRow(s: System, act: Action, id: Id) {
    && act.RemoveRows? && id in s.db.agents
    && match act.op
       case Purge(before) => Expired(s.db.agents[id], before)
       case Delete(gone) => gone == id
       case _ => false
  }

  /** What the first n steps have made of the latest attempt to save id: it succeeded and the row was not
      removed since, or it failed but carried what the row already held. */
  ghost predicate Kept(states: seq<System>, acts: seq<Action>, n: nat, id: Id)
    requires n <= |acts| < |states|
  {
    if n == 0 then false
    else
      var s, act := states[n - 1], acts[n - 1];
      if act.Save? && act.a.instanceUID == id then true
      else if act.FailSave? && act.a.instanceUID == id then RowHolds(s.db, id, ReportedOf(act.a))
      else Kept(states, acts, n - 1, id) && !RemovesRow(s, act, id)
  }

  /** The row of id holds what the latest attempt to save it carried. */
  ghost predicate HoldsTried(s: System, id: Id) {
    id in s.tried && RowHolds(s.db, id, s.tried[id])
  }

  /** A save leaves the row holding what it carried, accepted or not: the row is never newer. */
  lemma SaveHolds(slot: Id -> nat, s: System, a: Agent)
    requires a in s.tasks && SliceOk(SliceOf(slot, s, a.instanceUID))
    ensures RowHolds(SaveAgentTx(s.db, a), a.instanceUID, ReportedOf(a))
  {
    SavedCopy(s.db, a, a.instanceUID);
    TaskDone(s.tasks, a, a.instanceUID);
    assert InOrder(SliceOf(slot, s, a.instanceUID));
  }

  lemma OtherSaveHolds(db: Db, a: Agent, id: Id, report: Reported)
    requires a.instanceUID != id
    ensures RowHolds(SaveAgentTx(db, a), id, report) <==> RowHolds(db, id, report)
  {
    SavedCopy(db, a, id);
  }

  lemma RemovalHolds(s: System, op: StoreOp, id: Id, report: Reported)
    requires op.Purge? || op.Delete?
    ensures RowHolds(Apply(s.db, op), id, report) <==> RowHolds(s.db, id, report) && !RemovesRow(s, RemoveRows(op), id)
  {
    RemovedCopy(s.db, op, id);
  }

  /** Of two systems that differ in neither, either both hold what was tried or neither does. */
  lemma SameTried(s: System, s': System, id: Id)
    requires s'.tried == s.tried && StoredCopy(s'.db, id) == StoredCopy(s.db, id)
    ensures HoldsTried(s', id) <==> HoldsTried(s, id)
  {
  }

  lemma AttemptHoldsTried(slot: Id -> nat, s: System, a: Agent, db: Db, id: Id)
    requires a in s.tasks && SliceOk(SliceOf(slot, s, id)) && (db == SaveAgentTx(s.db, a) || db == s.db)
    ensures HoldsTried(Attempt(s, a).(db := db), id)
       <==> if a.instanceUID == id then RowHolds(db, id, ReportedOf(a)) else HoldsTried(s, id)
  {
    if a.instanceUID != id && id in s.tried {
      OtherSaveHolds(s.db, a, id, s.tried[id]);
    }
  }

  lemma StepHoldsTried(cfg: Config, slot: Id -> nat, s: System, act: Action, id: Id)
    requires Enabled(slot, s, act) && !act.Save? && !act.FailSave?
    ensures HoldsTried(Next(cfg, slot, s, act), id) <==> HoldsTried(s, id) && !RemovesRow(s, act, id)
  {
    var s' := Next(cfg, slot, s, act);
    assert s'.tried == s.tried;
    if act.RemoveRows? {
      if id in s.tried {
        RemovalHolds(s, act.op, id, s.tried[id]);
      }
    } else {
      if act.SoftDeleteGone? {
        OtherCopy(s.db, SoftDelete(act.id, act.at), id);
      } else if act.Keepalive? {
        OtherCopy(s.db, SaveSession(act.a), id);
      }
      SameTried(s, s', id);
    }
  }

  lemma {:induction false} KeptMeansHeld(cfg: Config, slot: Id -> nat, states: seq<System>, acts: seq<Action>, n: nat, id: Id)
    requires IsRun(cfg, slot, states, acts) && n <= |acts|
    ensures HoldsTried(states[n], id) <==> Kept(states, acts, n, id)
  {
    if n > 0 {
      KeptMeansHeld(cfg, slot, states, acts, n - 1, id);
      RunKeepsInv(cfg, slot, states, acts, n - 1);
      RunHoldsTried(cfg, slot, states, acts, n - 1, id);
    }
  }

  lemma RunHoldsTried(cfg: Config, slot: Id -> nat, states: seq<System>, acts: seq<Action>, n: nat, id: Id)
    requires IsRun(cfg, slot, states, acts) && n < |acts| && Inv(slot, states[n])
    ensures HoldsTried(states[n + 1], id)
       <==> if acts[n].Save? && acts[n].a.instanceUID == id then true
            else if acts[n].FailSave? && acts[n].a.instanceUID == id then RowHolds(states[n].db, id, ReportedOf(acts[n].a))
            else HoldsTried(states[n], id) && !RemovesRow(states[n], acts[n], id)
  {
    var s, act := states[n], acts[n];
    assert SliceOk(SliceOf(slot, s, id));
    if act.Save? {
      AttemptHoldsTried(slot, s, act.a, SaveAgentTx(s.db, act.a), id);
      if act.a.instanceUID == id {
        SaveHolds(slot, s, act.a);
      }
    } else if act.FailSave? {
      AttemptHoldsTried(slot, s, act.a, s.db, id);
      assert Attempt(s, act.a).(db := s.db) == Attempt(s, act.a);
    } else {
      StepHoldsTried(cfg, slot, s, act, id);
    }
  }

  /** For every interleaving of reports, disconnects, sweeps, flusher passes, purges and deletes on one
      replica, with any writes failing: whenever nothing is marked and no pass is running, the latest
      attempt to save a registered agent whose shard is not write-locked carried what the registry shows. */
  lemma LatestAttemptIsCurrent(cfg: Config, slot: Id -> nat, states: seq<System>, acts: seq<Action>, n: nat, id: Id)
    requires IsRun(cfg, slot, states, acts) && n < |states|
    requires Quiescent(states[n]) && id in states[n].agents && Free(slot, states[n], id)
    ensures id in states[n].tried && states[n].tried[id] == ReportedOf(states[n].agents[id])
  {
    RunKeepsInv(cfg, slot, states, acts, n);
    var sl := SliceOf(slot, states[n], id);
    assert SliceOk(sl) && sl.tasks == {};
  }

  /** So, with each agent's report times increasing, the stored attributes, health, packages and config are
      the registry's exactly when that attempt was kept: it succeeded and no purge or delete has removed the
      row since, or it failed but carried what the row already held. */
  lemma NoLostUpdate(cfg: Config, slot: Id -> nat, states: seq<System>, acts: seq<Action>, n: nat, id: Id)
    requires IsRun(cfg, slot, states, acts) && n < |states|
    requires Quiescent(states[n]) && id in states[n].agents && Free(slot, states[n], id)
    ensures RowHolds(states[n].db, id, ReportedOf(states[n].agents[id])) <==> Kept(states, acts, n, id)
  {
    LatestAttemptIsCurrent(cfg, slot, states, acts, n, id);
    KeptMeansHeld(cfg, slot, states, acts, n, id);
  }

  predicate Attempts(act: Action, id: Id) {
    (act.Save? || act.FailSave?) && act.a.instanceUID == id
  }

  lemma RunTries(cfg: Config, slot: Id -> nat, states: seq<System>, acts: seq<Action>, n: nat, id: Id)
    requires IsRun(cfg, slot, states, acts) && n < |acts| && id in states[n + 1].tried
    ensures Attempts(acts[n], id) || id in states[n].tried
  {
    assert states[n + 1] == Next(cfg, slot, states[n], acts[n]);
  }

  /** Some step before instant n tried to save id. */
  predicate Attempted(acts: seq<Action>, n: nat, id: Id)
    requires n <= |acts|
  {
    n > 0 && (Attempts(acts[n - 1], id) || Attempted(acts, n - 1, id))
  }

  lemma {:induction false} TriedMeansAttempted(cfg: Config, slot: Id -> nat, states: seq<System>, acts: seq<Action>, n: nat, id: Id)
    requires IsRun(cfg, slot, states, acts) && n <= |acts| && id in states[n].tried
    ensures Attempted(acts, n, id)
  {
    if n > 0 {
      RunTries(cfg, slot, states, acts, n - 1, id);
      if !Attempts(acts[n - 1], id) {
        TriedMeansAttempted(cfg, slot, states, acts, n - 1, id);
      }
    }
  }

  lemma {:induction false} KeptWhenNothingFails(states: seq<System>, acts: seq<Action>, n: nat, id: Id)
    requires n <= |acts| < |states| && Attempted(acts, n, id)
    requires forall i :: 0 <= i < n ==> !RemovesRow(states[i], acts[i], id) && !(acts[i].FailSave? && acts[i].a.instanceUID == id)
    ensures Kept(states, acts, n, id)
  {
    if !Attempts(acts[n - 1], id) {
      KeptWhenNothingFails(states, acts, n - 1, id);
    }
  }

  /** In particular where no save of the agent fails and its row is never removed. */
  lemma NothingFailsNothingLost(cfg: Config, slot: Id -> nat, states: seq<System>, acts: seq<Action>, n: nat, id: Id)
    requires IsRun(cfg, slot, states, acts) && n < |states|
    requires Quiescent(states[n]) && id in states[n].agents && Free(slot, states[n], id)
    requires forall i :: 0 <= i < n ==> !RemovesRow(states[i], acts[i], id) && !(acts[i].FailSave? && acts[i].a.instanceUID == id)
    ensures RowHolds(states[n].db, id, ReportedOf(states[n].agents[id]))
  {
    LatestAttemptIsCurrent(cfg, slot, states, acts, n, id);
    TriedMeansAttempted(cfg, slot, states, acts, n, id);
    KeptWhenNothingFails(states, acts, n, id);
    NoLostUpdate(cfg, slot, states, acts, n, id);
  }
}
