/** Freshness: a replica's passes keep the stored session of every agent that keeps
    checking in young enough that no reader takes it for disconnected.

    Passes are not atomic here. A pass reads the registry when it begins, its writes
    land or fail one by one in any order, and reports, sweeps and other writers go on
    meanwhile. The claim is about one agent: only its own writes and row matter. */
module Freshness {
  import opened Fleet
  import opened Store
  import opened StoreRuns
  import opened ReadPath
  import opened Snapshotter
  import FleetRuns

  /** The pass in progress, if any: when it began, whom it listed, what is still to land. */
  datatype InPass = Idle | Passing(began: Time, listed: set<Id>, pending: seq<Agent>)

  /** anchor is when the last completed pass began; covered are the agents some completed pass listed. */
  datatype Replica = Replica(now: Time, agents: map<Id, Agent>, memory: Memory, pass: InPass, anchor: Time,
                             covered: set<Id>, db: Db)

  datatype Action =
    | Tick(to: Time)
    | CheckIn(msg: Message, meta: ConnMeta)
    | MarkConnected(id: Id, connected: bool)
    | SweepNow
    | Begin(list: seq<Agent>)
    | Land(i: nat)
    | Fail(i: nat)
    | End
    | Elsewhere(op: StoreOp)

  /** A write lands only where there is an agents row; any write may fail. A pass ends when none is left. */
  ghost predicate Enabled(s: Replica, act: Action) {
    match act
    case Tick(to) => to >= s.now
    case CheckIn(_, _) => true
    case MarkConnected(_, _) => true
    case SweepNow => true
    case Begin(list) => s.pass.Idle? && Lists(list, s.agents)
    case Land(i) => s.pass.Passing? && i < |s.pass.pending| && s.pass.pending[i].instanceUID in s.db.agents
    case Fail(i) => s.pass.Passing? && i < |s.pass.pending|
    case End => s.pass.Passing? && s.pass.pending == []
    case Elsewhere(_) => true
  }

  function Without(pending: seq<Agent>, i: nat): seq<Agent>
    requires i < |pending|
  {
    pending[..i] + pending[i + 1..]
  }

  ghost function Next(cfg: Config, keepalive: Time, s: Replica, act: Action): Replica
    requires Enabled(s, act)
  {
    match act
    case Tick(to) => s.(now := to)
    case CheckIn(msg, meta) => s.(agents := ApplyOp(cfg, s.agents, Op.Report(msg, meta, s.now)))
    case MarkConnected(id, connected) => s.(agents := ApplyOp(cfg, s.agents, Op.SetConnected(id, connected)))
    case SweepNow => s.(agents := ApplyOp(cfg, s.agents, Op.Sweep(s.now)))
    case Begin(list) =>
      s.(pass := Passing(s.now, Uids(list), DueOf(s.memory.written, list, s.now, keepalive)),
         memory := AfterDue(s.memory, Uids(list)))
    case Land(i) =>
      s.(db := SaveSessionTx(s.db, s.pass.pending[i]), memory := Record(s.memory, s.pass.pending[i]),
         pass := s.pass.(pending := Without(s.pass.pending, i)))
    case Fail(i) => s.(pass := s.pass.(pending := Without(s.pass.pending, i)))
    case End => s.(pass := Idle, anchor := s.pass.began, covered := s.covered + s.pass.listed)
    case Elsewhere(op) => s.(db := Apply(s.db, op))
  }

  /** A replica, with the time one agent last checked in on it. */
  datatype History = History(s: Replica, last: Option<Time>)

  predicate ChecksIn(act: Action, id: Id) {
    act.CheckIn? && act.msg.uid == Some(id)
  }

  ghost function Forward(cfg: Config, keepalive: Time, id: Id, h: History, act: Action): History
    requires Enabled(h.s, act)
  {
    History(Next(cfg, keepalive, h.s, act), if ChecksIn(act, id) then Some(h.s.now) else h.last)
  }

  /** The timing assumptions, for one agent: it checks in at least every gap, registered or not, and each
      pass is complete within span of the beginning of the one before. */
  ghost predicate OnTime(id: Id, span: Time, gap: Time, h: History) {
    && (h.last.Some? ==> h.s.now <= h.last.value + gap)
    && (id in h.s.covered ==> h.s.now <= h.s.anchor + span)
  }

  /** The step fails no write of id and removes no row of it. */
  ghost predicate Spares(s: Replica, act: Action, id: Id)
    requires Enabled(s, act)
  {
    && (act.Fail? ==> s.pass.pending[act.i].instanceUID != id)
    && (act.Elsewhere? && id in s.db.agents ==> id in Apply(s.db, act.op).agents)
  }

  /** A replica that has just started over whatever the store holds. */
  ghost predicate Starts(h: History) {
    h.last == None && SessionsFollow(h.s.db) && h.s == Replica(h.s.now, map[], BLANK, Idle, h.s.now, {}, h.s.db)
  }

  ghost predicate IsCourse(cfg: Config, keepalive: Time, id: Id, span: Time, gap: Time, hs: seq<History>, acts: seq<Action>) {
    && |hs| == |acts| + 1 && Starts(hs[0])
    && (forall i :: 0 <= i < |acts| ==>
          && Enabled(hs[i].s, acts[i]) && Spares(hs[i].s, acts[i], id)
          && hs[i + 1] == Forward(cfg, keepalive, id, hs[i], acts[i]))
    && (forall i :: 0 <= i < |hs| ==> OnTime(id, span, gap, hs[i]))
  }

  // ----- the invariant -----

  /** The settings leave room: the keepalive and the gap each fit with one span in the threshold; and the
      agent is never evicted between two check-ins, or only after a pass has caught its last one. */
  predicate Roomy(cfg: Config, keepalive: Time, span: Time, gap: Time) {
    && gap + span <= DisconnectThreshold(cfg) && keepalive + span <= DisconnectThreshold(cfg)
    && (gap <= EvictAfter(cfg) || (span + keepalive <= EvictAfter(cfg) + 2 && span <= EvictAfter(cfg)))
  }

  /** How a stored time stands to a pass that began at time at, with the agent last seen at last: not
      older than slack, and not missing last if the pass found it, unless it was inside the keepalive. */
  predicate Caught(stored: Time, last: Time, at: Time, slack: Time, keepalive: Time) {
    stored >= at - slack && (last < at ==> stored >= last || stored > at - keepalive)
  }

  ghost predicate RowCaught(db: Db, id: Id, last: Time, at: Time, slack: Time, keepalive: Time) {
    id in db.sessions && Caught(db.sessions[id].updatedAt, last, at, slack, keepalive)
  }

  ghost predicate Waiting(pending: seq<Agent>, id: Id) {
    exists i :: 0 <= i < |pending| && pending[i].instanceUID == id
  }

  ghost predicate PassSound(pass: InPass, db: Db, id: Id, last: Time, slack: Time, keepalive: Time)
    requires pass.Passing?
  {
    && (forall i :: 0 <= i < |pass.pending| && pass.pending[i].instanceUID == id ==>
          Caught(pass.pending[i].lastSeen, last, pass.began, slack, keepalive))
    && (!Waiting(pass.pending, id) ==> RowCaught(db, id, last, pass.began, slack, keepalive))
  }

  ghost predicate Tracked(s: Replica, id: Id) {
    SessionsFollow(s.db) && Keyed(s.agents)
    && (id in s.memory.written ==> TrackedBehind(s.memory.written[id], s.db, id))
  }

  /** last is the registry's last-seen time, or past eviction; nothing began or was seen in the future. */
  ghost predicate Timely(cfg: Config, id: Id, h: History) {
    && (id in h.s.agents ==> h.last == Some(h.s.agents[id].lastSeen))
    && (h.last.Some? ==> h.last.value <= h.s.now)
    && (h.last.Some? && id !in h.s.agents ==> h.s.now - h.last.value > EvictAfter(cfg))
    && h.s.anchor <= h.s.now && (h.s.pass.Passing? ==> h.s.pass.began <= h.s.now)
  }

  ghost predicate Sound(cfg: Config, keepalive: Time, slack: Time, id: Id, h: History) {
    && Tracked(h.s, id) && Timely(cfg, id, h)
    && (id in h.s.covered || (h.s.pass.Passing? && id in h.s.pass.listed) ==> h.last.Some?)
    && (id in h.s.covered ==> RowCaught(h.s.db, id, h.last.value, h.s.anchor, slack, keepalive))
    && (h.s.pass.Passing? && (id in h.s.covered || id in h.s.pass.listed) ==>
          PassSound(h.s.pass, h.s.db, id, h.last.value, slack, keepalive))
  }

  // ----- every step keeps it -----

  /** A later stored time stands no worse. */
  lemma RowStillCaught(db: Db, db': Db, id: Id, last: Time, at: Time, slack: Time, keepalive: Time)
    requires RowCaught(db, id, last, at, slack, keepalive)
    requires id in db'.sessions && db'.sessions[id].updatedAt >= db.sessions[id].updatedAt
    ensures RowCaught(db', id, last, at, slack, keepalive)
  {
  }

  /** A listed agent that is due is among the writes of the pass. */
  lemma DueWaits(written: map<Id, SessionWrite>, list: seq<Agent>, now: Time, keepalive: Time, id: Id)
    requires id in Uids(list)
    ensures IsDue(written, id, now, keepalive) ==> Waiting(DueOf(written, list, now, keepalive), id)
  {
    UidsHave(list, id);
    var i :| 0 <= i < |list| && list[i].instanceUID == id;
    DueExactly(written, list, now, keepalive, list[i]);
  }

  lemma DueAreRegistered(written: map<Id, SessionWrite>, list: seq<Agent>, agents: map<Id, Agent>, now: Time, keepalive: Time,
                         i: nat)
    requires Lists(list, agents) && i < |DueOf(written, list, now, keepalive)|
    ensures var a := DueOf(written, list, now, keepalive)[i]; a.instanceUID in agents && a == agents[a.instanceUID]
  {
    var a := DueOf(written, list, now, keepalive)[i];
    DueExactly(written, list, now, keepalive, a);
    var j :| 0 <= j < |list| && list[j] == a;
  }

  lemma StillWaits(pending: seq<Agent>, i: nat, id: Id)
    requires i < |pending| && pending[i].instanceUID != id
    ensures Waiting(pending, id) ==> Waiting(Without(pending, i), id)
  {
    if j :| 0 <= j < |pending| && pending[j].instanceUID == id {
      assert Without(pending, i)[if j < i then j else j - 1].instanceUID == id;
    }
  }

  lemma WithoutKeeps(pending: seq<Agent>, i: nat, j: nat)
    requires i < |pending| && j < |Without(pending, i)|
    ensures Without(pending, i)[j] == pending[if j < i then j else j + 1]
  {
  }

  /** An agent found at the beginning of a pass: it is due, and its last check-in waits to be written, or
      its tracked time is inside the keepalive. */
  lemma FoundAtBegin(cfg: Config, keepalive: Time, id: Id, h: History, list: seq<Agent>, span: Time, gap: Time, slack: Time)
    requires Sound(cfg, keepalive, slack, id, h) && OnTime(id, span, gap, h) && Enabled(h.s, Begin(list)) && id in h.s.agents
    requires gap <= slack && keepalive <= slack
    ensures h.last.Some?
    ensures PassSound(Next(cfg, keepalive, h.s, Begin(list)).pass, h.s.db, id, h.last.value, slack, keepalive)
  {
    var s, last := h.s, h.last.value;
    var due := DueOf(s.memory.written, list, s.now, keepalive);
    forall i | 0 <= i < |due| && due[i].instanceUID == id ensures Caught(due[i].lastSeen, last, s.now, slack, keepalive) {
      DueAreRegistered(s.memory.written, list, s.agents, s.now, keepalive, i);
    }
    DueWaits(s.memory.written, list, s.now, keepalive, id);
  }

  /** The last completed pass before an eviction had caught the last check-in. */
  lemma CaughtBeforeEviction(cfg: Config, keepalive: Time, now: Time, last: Time, anchor: Time, stored: Time, slack: Time,
                             span: Time, gap: Time)
    requires Roomy(cfg, keepalive, span, gap) && Caught(stored, last, anchor, slack, keepalive)
    requires now <= last + gap && now <= anchor + span && now - last > EvictAfter(cfg)
    ensures stored >= last
  {
  }

  lemma MissingAtBegin(cfg: Config, keepalive: Time, id: Id, h: History, list: seq<Agent>, span: Time, gap: Time, slack: Time)
    requires Sound(cfg, keepalive, slack, id, h) && OnTime(id, span, gap, h) && Enabled(h.s, Begin(list))
    requires id !in h.s.agents && id in h.s.covered && gap <= slack && Roomy(cfg, keepalive, span, gap)
    ensures PassSound(Next(cfg, keepalive, h.s, Begin(list)).pass, h.s.db, id, h.last.value, slack, keepalive)
  {
    var s, last := h.s, h.last.value;
    var due := DueOf(s.memory.written, list, s.now, keepalive);
    CaughtBeforeEviction(cfg, keepalive, s.now, last, s.anchor, s.db.sessions[id].updatedAt, slack, span, gap);
    forall i | 0 <= i < |due| ensures due[i].instanceUID != id {
      DueAreRegistered(s.memory.written, list, s.agents, s.now, keepalive, i);
    }
  }

  lemma BeginSound(cfg: Config, keepalive: Time, id: Id, h: History, list: seq<Agent>, span: Time, gap: Time, slack: Time)
    requires Sound(cfg, keepalive, slack, id, h) && OnTime(id, span, gap, h) && Enabled(h.s, Begin(list))
    requires gap <= slack && keepalive <= slack && Roomy(cfg, keepalive, span, gap)
    ensures Sound(cfg, keepalive, slack, id, Forward(cfg, keepalive, id, h, Begin(list)))
  {
    if id in h.s.agents {
      FoundAtBegin(cfg, keepalive, id, h, list, span, gap, slack);
    } else if id in h.s.covered {
      MissingAtBegin(cfg, keepalive, id, h, list, span, gap, slack);
    }
  }

  /** A session write leaves every stored time where it was or later, and its own at least its own. */
  lemma LandStores(db: Db, a: Agent, x: Id)
    requires SessionsFollow(db) && a.instanceUID in db.agents && x in db.sessions
    ensures SessionsFollow(SaveSessionTx(db, a)) && x in SaveSessionTx(db, a).sessions
    ensures SaveSessionTx(db, a).sessions[x].updatedAt >= db.sessions[x].updatedAt
    ensures x == a.instanceUID ==> SaveSessionTx(db, a).sessions[x].updatedAt >= a.lastSeen
    ensures x != a.instanceUID ==> SaveSessionTx(db, a).sessions[x] == db.sessions[x]
  {
    StepSessionsFollow(db, SaveSession(a));
  }

  lemma LandPass(pass: InPass, db: Db, i: nat, id: Id, last: Time, slack: Time, keepalive: Time)
    requires pass.Passing? && i < |pass.pending| && SessionsFollow(db) && pass.pending[i].instanceUID in db.agents
    requires PassSound(pass, db, id, last, slack, keepalive)
    ensures PassSound(pass.(pending := Without(pass.pending, i)), SaveSessionTx(db, pass.pending[i]), id, last, slack, keepalive)
  {
    var a, rest := pass.pending[i], Without(pass.pending, i);
    forall j | 0 <= j < |rest| && rest[j].instanceUID == id ensures Caught(rest[j].lastSeen, last, pass.began, slack, keepalive) {
      WithoutKeeps(pass.pending, i, j);
    }
    if a.instanceUID == id {
      LandStores(db, a, id);
    } else {
      StillWaits(pass.pending, i, id);
      if !Waiting(rest, id) {
        LandStores(db, a, id);
      }
    }
  }

  lemma LandSound(cfg: Config, keepalive: Time, id: Id, h: History, i: nat, slack: Time)
    requires Sound(cfg, keepalive, slack, id, h) && Enabled(h.s, Land(i))
    ensures Sound(cfg, keepalive, slack, id, Forward(cfg, keepalive, id, h, Land(i)))
  {
    var s, a := h.s, h.s.pass.pending[i];
    if id in s.db.sessions {
      LandStores(s.db, a, id);
    }
    LandStores(s.db, a, a.instanceUID);
    if id in s.covered {
      RowStillCaught(s.db, SaveSessionTx(s.db, a), id, h.last.value, s.anchor, slack, keepalive);
    }
    if id in s.covered || id in s.pass.listed {
      LandPass(s.pass, s.db, i, id, h.last.value, slack, keepalive);
    }
  }

  lemma FailSound(cfg: Config, keepalive: Time, id: Id, h: History, i: nat, slack: Time)
    requires Sound(cfg, keepalive, slack, id, h) && Enabled(h.s, Fail(i)) && Spares(h.s, Fail(i), id)
    ensures Sound(cfg, keepalive, slack, id, Forward(cfg, keepalive, id, h, Fail(i)))
  {
    StillWaits(h.s.pass.pending, i, id);
  }

  lemma ElsewhereStores(db: Db, op: StoreOp, id: Id)
    requires SessionsFollow(db) && id in db.agents && id in Apply(db, op).agents
    ensures SessionsFollow(Apply(db, op)) && id in Apply(db, op).sessions
    ensures Apply(db, op).sessions[id].updatedAt >= db.sessions[id].updatedAt
  {
    StepSessionsFollow(db, op);
    StepAdvances(db, op, id);
  }

  lemma ElsewhereSound(cfg: Config, keepalive: Time, id: Id, h: History, op: StoreOp, slack: Time)
    requires Sound(cfg, keepalive, slack, id, h) && Spares(h.s, Action.Elsewhere(op), id)
    ensures Sound(cfg, keepalive, slack, id, Forward(cfg, keepalive, id, h, Action.Elsewhere(op)))
  {
    var s, db := h.s, Apply(h.s.db, op);
    StepSessionsFollow(s.db, op);
    if id in s.db.agents {
      ElsewhereStores(s.db, op, id);
      if id in s.covered {
        RowStillCaught(s.db, db, id, h.last.value, s.anchor, slack, keepalive);
      }
      if s.pass.Passing? && (id in s.covered || id in s.pass.listed) && !Waiting(s.pass.pending, id) {
        RowStillCaught(s.db, db, id, h.last.value, s.pass.began, slack, keepalive);
      }
    }
  }

  lemma RegistryTimely(cfg: Config, keepalive: Time, id: Id, h: History, act: Action)
    requires act.CheckIn? || act.MarkConnected? || act.SweepNow?
    requires Timely(cfg, id, h) && Keyed(h.s.agents)
    ensures Timely(cfg, id, Forward(cfg, keepalive, id, h, act)) && Keyed(Forward(cfg, keepalive, id, h, act).s.agents)
  {
    var s := h.s;
    var op := if act.CheckIn? then Op.Report(act.msg, act.meta, s.now)
              else if act.MarkConnected? then Op.SetConnected(act.id, act.connected)
              else Op.Sweep(s.now);
    FleetRuns.StepKeeps(cfg, s.agents, op);
    if ChecksIn(act, id) {
      FoldChecksIn(cfg, Known(s.agents, id, s.now), act.msg, act.meta, s.now);
    }
  }

  lemma RegistrySound(cfg: Config, keepalive: Time, id: Id, h: History, act: Action, slack: Time)
    requires act.CheckIn? || act.MarkConnected? || act.SweepNow?
    requires Sound(cfg, keepalive, slack, id, h)
    ensures Sound(cfg, keepalive, slack, id, Forward(cfg, keepalive, id, h, act))
  {
    RegistryTimely(cfg, keepalive, id, h, act);
  }

  lemma StepSound(cfg: Config, keepalive: Time, id: Id, h: History, act: Action, span: Time, gap: Time, slack: Time)
    requires Enabled(h.s, act) && Spares(h.s, act, id) && OnTime(id, span, gap, h)
    requires Sound(cfg, keepalive, slack, id, h)
    requires gap <= slack && keepalive <= slack && Roomy(cfg, keepalive, span, gap)
    ensures Sound(cfg, keepalive, slack, id, Forward(cfg, keepalive, id, h, act))
  {
    match act
    case Tick(_) =>
    case CheckIn(_, _) => RegistrySound(cfg, keepalive, id, h, act, slack);
    case MarkConnected(_, _) => RegistrySound(cfg, keepalive, id, h, act, slack);
    case SweepNow => RegistrySound(cfg, keepalive, id, h, act, slack);
    case Begin(list) => BeginSound(cfg, keepalive, id, h, list, span, gap, slack);
    case Land(i) => LandSound(cfg, keepalive, id, h, i, slack);
    case Fail(i) => FailSound(cfg, keepalive, id, h, i, slack);
    case End =>
      assert !Waiting(h.s.pass.pending, id);
    case Elsewhere(op) => ElsewhereSound(cfg, keepalive, id, h, op, slack);
  }

  lemma {:induction false} CourseSound(cfg: Config, keepalive: Time, id: Id, span: Time, gap: Time, hs: seq<History>,
                                       acts: seq<Action>, n: nat, slack: Time)
    requires IsCourse(cfg, keepalive, id, span, gap, hs, acts) && n < |hs|
    requires gap <= slack && keepalive <= slack && Roomy(cfg, keepalive, span, gap)
    ensures Sound(cfg, keepalive, slack, id, hs[n])
  {
    if n > 0 {
      CourseSound(cfg, keepalive, id, span, gap, hs, acts, n - 1, slack);
      assert hs[n - 1 + 1] == Forward(cfg, keepalive, id, hs[n - 1], acts[n - 1]);
      assert OnTime(id, span, gap, hs[n - 1]);
      StepSound(cfg, keepalive, id, hs[n - 1], acts[n - 1], span, gap, slack);
    }
  }

  // ----- the results -----

  /** In every run in which an agent checks in at least every gap, passes complete within span of each
      other's beginnings and no write or row of that agent is lost, once a pass has covered the agent its
      stored session is never older than the threshold, at any instant. */
  lemma StoredSessionsStayFresh(cfg: Config, tick: Time, id: Id, span: Time, gap: Time, hs: seq<History>, acts: seq<Action>, n: nat)
    requires Roomy(cfg, KeepaliveInterval(DisconnectThreshold(cfg), tick), span, gap)
    requires IsCourse(cfg, KeepaliveInterval(DisconnectThreshold(cfg), tick), id, span, gap, hs, acts)
    requires n < |hs| && id in hs[n].s.covered
    ensures var s := hs[n].s;
            && id in s.db.agents && ScanAgent(s.db, id).Ok?
            && s.now - s.db.sessions[id].updatedAt <= DisconnectThreshold(cfg)
            && !StaleConnected(ScanAgent(s.db, id).value, s.now, DisconnectThreshold(cfg))
  {
    var t := DisconnectThreshold(cfg);
    CourseSound(cfg, KeepaliveInterval(t, tick), id, span, gap, hs, acts, n, t - span);
    assert OnTime(id, span, gap, hs[n]);
  }

  lemma TwoHeartbeatsOutlastTheThreshold(cfg: Config)
    requires cfg.staleMissedHeartbeats >= 2
    ensures DisconnectThreshold(cfg) < EvictAfter(cfg)
  {
    var h, k := cfg.heartbeatInterval, cfg.staleMissedHeartbeats;
    assert h * k >= h * 2;
  }

  /** With the settings the code derives: two or more missed heartbeats before eviction, a tick
      under the threshold, passes a tick apart, and check-in gaps up to threshold minus tick. */
  lemma DerivedKeepaliveStaysFresh(cfg: Config, tick: Time, id: Id, hs: seq<History>, acts: seq<Action>, n: nat)
    requires 0 < tick < DisconnectThreshold(cfg) && cfg.staleMissedHeartbeats >= 2
    requires IsCourse(cfg, KeepaliveInterval(DisconnectThreshold(cfg), tick), id, tick, DisconnectThreshold(cfg) - tick, hs, acts)
    requires n < |hs| && id in hs[n].s.covered
    ensures id in hs[n].s.db.agents && ScanAgent(hs[n].s.db, id).Ok?
    ensures !StaleConnected(ScanAgent(hs[n].s.db, id).value, hs[n].s.now, DisconnectThreshold(cfg))
  {
    KeepaliveLeavesATick(DisconnectThreshold(cfg), tick);
    TwoHeartbeatsOutlastTheThreshold(cfg);
    StoredSessionsStayFresh(cfg, tick, id, tick, DisconnectThreshold(cfg) - tick, hs, acts, n);
  }

  /** So another replica that knows a covered, punctual agent only from the store shows it connected exactly
      when its row is not soft-deleted and the last accepted session write says so. */
  lemma ShownConnectedExactly(cfg: Config, tick: Time, id: Id, span: Time, gap: Time, hs: seq<History>, acts: seq<Action>, n: nat,
                              local: map<Id, Agent>)
    requires Roomy(cfg, KeepaliveInterval(DisconnectThreshold(cfg), tick), span, gap)
    requires IsCourse(cfg, KeepaliveInterval(DisconnectThreshold(cfg), tick), id, span, gap, hs, acts)
    requires n < |hs| && id in hs[n].s.covered && id !in local && id != ""
    ensures var s := hs[n].s;
            var d := GetAgent(local, Some(s.db), false, id, s.now, DisconnectThreshold(cfg));
            && id in s.db.agents && id in s.db.sessions
            && (d.Found? && d.agent.connected <==> s.db.agents[id].evictedAt.None? && s.db.sessions[id].connected)
  {
    StoredSessionsStayFresh(cfg, tick, id, span, gap, hs, acts, n);
  }
}
