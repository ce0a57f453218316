/** How a registered agent can be without its row, with nothing left to do. Saving an agent again does
    not clear its soft deletion, so a purge removes the row of one that has come back; and a save that
    fails is not tried again. Neither marks the agent dirty. */
module LostRow {
  import opened Fleet
  import opened Store
  import opened StoreRuns
  import opened Flush

  ghost predicate Reached(cfg: Config, slot: Id -> nat, s: System) {
    exists states: seq<System>, acts: seq<Action> :: IsRun(cfg, slot, states, acts) && states[|acts|] == s
  }

  lemma ExtendRun(cfg: Config, slot: Id -> nat, states: seq<System>, acts: seq<Action>, act: Action, next: System)
    requires IsRun(cfg, slot, states, acts) && Enabled(slot, states[|acts|], act)
    requires next == Next(cfg, slot, states[|acts|], act)
    ensures IsRun(cfg, slot, states + [next], acts + [act])
  {
    var states', acts' := states + [next], acts + [act];
    forall i | 0 <= i < |acts'|
      ensures Enabled(slot, states'[i], acts'[i]) && states'[i + 1] == Next(cfg, slot, states'[i], acts'[i])
    {
      if i < |acts| {
        assert states'[i] == states[i] && states'[i + 1] == states[i + 1] && acts'[i] == acts[i];
      }
    }
  }

  lemma Extend(cfg: Config, slot: Id -> nat, s: System, act: Action)
    requires Reached(cfg, slot, s) && Enabled(slot, s, act)
    ensures Reached(cfg, slot, Next(cfg, slot, s, act))
  {
    var next := Next(cfg, slot, s, act);
    var states: seq<System>, acts: seq<Action> :| IsRun(cfg, slot, states, acts) && states[|acts|] == s;
    ExtendRun(cfg, slot, states, acts, act, next);
    assert (states + [next])[|acts + [act]|] == next;
  }

  /** No lock is held and no pass is running. */
  ghost predicate AtRest(s: System) {
    s.locks == map[] && !s.active && s.todo == {} && s.tasks == {} && s.gone == {}
  }

  function Hello(id: Id): Message {
    Message(Some(id), 0, 0, None, None, map[], map[])
  }

  const NO_META := ConnMeta("", "", false, "")

  function Arrived(id: Id, now: Time): Agent {
    Touch(Fresh(id, now), Hello(id), NO_META, now)
  }

  /** One step of the lock holder of a shard, given what it does to the agent it is about. */
  lemma StepUnderLock(cfg: Config, slot: Id -> nat, s: System, k: nat, h: Holder, id: Id, e: Effect, s': System)
    requires Reached(cfg, slot, s) && s.locks == map[k := h] && !Completed(h) && Subject(h, id) == id
    requires h.Sweeping? && h.stage.Ready? ==> id in h.todo
    requires EffectOf(cfg, Entry(s, id), h, id) == e && s' == Perform(s, k, id, e)
    ensures Reached(cfg, slot, s')
  {
    Extend(cfg, slot, s, Proceed(k, id));
  }

  lemma Unlocks(cfg: Config, slot: Id -> nat, s: System, k: nat, h: Holder)
    requires Reached(cfg, slot, s) && s.locks == map[k := h] && Completed(h)
    ensures Reached(cfg, slot, s.(locks := map[]))
  {
    Extend(cfg, slot, s, Unlock(k));
    assert s.locks - {k} == map[];
  }

  function ReportAt(id: Id, now: Time, phase: Phase): Holder {
    Reporting(id, Hello(id), NO_META, now, phase)
  }

  lemma ReportLocks(cfg: Config, slot: Id -> nat, s: System, id: Id, now: Time)
    requires Reached(cfg, slot, s) && s.locks == map[] && (id in s.last ==> s.last[id] < now)
    ensures Reached(cfg, slot, s.(locks := map[slot(id) := ReportAt(id, now, Enter)], last := s.last[id := now]))
  {
    Extend(cfg, slot, s, LockReport(Hello(id), NO_META, now));
  }

  lemma ReportEnters(cfg: Config, slot: Id -> nat, s: System, id: Id, now: Time)
    requires Reached(cfg, slot, s) && s.locks == map[slot(id) := ReportAt(id, now, Enter)] && id !in s.agents
    ensures Reached(cfg, slot, s.(locks := map[slot(id) := ReportAt(id, now, Announce)],
                                  agents := s.agents[id := Fresh(id, now)]))
  {
    var k, h, h' := slot(id), ReportAt(id, now, Enter), ReportAt(id, now, Announce);
    StepUnderLock(cfg, slot, s, k, h, id, Effect(Some(Fresh(id, now)), false, h'),
                  s.(locks := map[k := h'], agents := s.agents[id := Fresh(id, now)]));
  }

  lemma ReportAnnounces(cfg: Config, slot: Id -> nat, s: System, id: Id, now: Time)
    requires Reached(cfg, slot, s) && s.locks == map[slot(id) := ReportAt(id, now, Announce)]
    requires id in s.agents && !s.agents[id].connected
    ensures Reached(cfg, slot, s.(locks := map[slot(id) := ReportAt(id, now, Arrive)], dirty := s.dirty + {id}))
  {
    var k, h, h' := slot(id), ReportAt(id, now, Announce), ReportAt(id, now, Arrive);
    assert s.agents[id := s.agents[id]] == s.agents;
    StepUnderLock(cfg, slot, s, k, h, id, Effect(Some(s.agents[id]), true, h'),
                  s.(locks := map[k := h'], dirty := s.dirty + {id}));
  }

  lemma ReportArrives(cfg: Config, slot: Id -> nat, s: System, id: Id, now: Time)
    requires Reached(cfg, slot, s) && s.locks == map[slot(id) := ReportAt(id, now, Arrive)]
    requires id in s.agents && s.agents[id] == Fresh(id, now)
    ensures Reached(cfg, slot, s.(locks := map[], agents := s.agents[id := Arrived(id, now)]))
  {
    var k, h, h' := slot(id), ReportAt(id, now, Arrive), ReportAt(id, now, Parts([]));
    var s' := s.(locks := map[k := h'], agents := s.agents[id := Arrived(id, now)]);
    assert PartsOf(Hello(id)) == [];
    StepUnderLock(cfg, slot, s, k, h, id, Effect(Some(Arrived(id, now)), false, h'), s');
    Unlocks(cfg, slot, s', k, h');
  }

  /** A report with nothing to say: it registers the agent, marks it and checks it in. */
  lemma Reports(cfg: Config, slot: Id -> nat, s: System, id: Id, now: Time)
    requires Reached(cfg, slot, s) && AtRest(s) && id !in s.agents && (id in s.last ==> s.last[id] < now)
    ensures Reached(cfg, slot, s.(agents := s.agents[id := Arrived(id, now)], dirty := s.dirty + {id}, last := s.last[id := now]))
  {
    var k := slot(id);
    ReportLocks(cfg, slot, s, id, now);
    var s1 := s.(locks := map[k := ReportAt(id, now, Enter)], last := s.last[id := now]);
    ReportEnters(cfg, slot, s1, id, now);
    var s2 := s1.(locks := map[k := ReportAt(id, now, Announce)], agents := s.agents[id := Fresh(id, now)]);
    ReportAnnounces(cfg, slot, s2, id, now);
    var s3 := s2.(locks := map[k := ReportAt(id, now, Arrive)], dirty := s.dirty + {id});
    ReportArrives(cfg, slot, s3, id, now);
    assert s3.agents[id := Arrived(id, now)] == s.agents[id := Arrived(id, now)];
  }

  /** A pass has read the one marked agent back and is about to save it. */
  lemma ReadsBack(cfg: Config, slot: Id -> nat, s: System, id: Id)
    requires Reached(cfg, slot, s) && AtRest(s) && s.dirty == {id} && id in s.agents
    ensures Reached(cfg, slot, s.(dirty := {}, active := true, tasks := {s.agents[id]}))
  {
    Extend(cfg, slot, s, Drain);
    var s1 := s.(active := true, todo := {id}, dirty := {});
    Extend(cfg, slot, s1, Get(id));
    assert Next(cfg, slot, s1, Get(id)) == s1.(todo := {}, tasks := {s.agents[id]});
  }

  /** A pass that saves the one marked agent. */
  lemma Saves(cfg: Config, slot: Id -> nat, s: System, id: Id)
    requires Reached(cfg, slot, s) && AtRest(s) && s.dirty == {id} && id in s.agents && s.agents[id].instanceUID == id
    ensures var a := s.agents[id];
            Reached(cfg, slot, s.(dirty := {}, db := SaveAgentTx(s.db, a), tried := s.tried[id := ReportedOf(a)]))
  {
    var a := s.agents[id];
    ReadsBack(cfg, slot, s, id);
    var s1 := s.(dirty := {}, active := true, tasks := {a});
    Extend(cfg, slot, s1, Save(a));
    var s2 := s1.(db := SaveAgentTx(s.db, a), tasks := {}, tried := s.tried[id := ReportedOf(a)]);
    assert Next(cfg, slot, s1, Save(a)) == s2;
    Extend(cfg, slot, s2, Finish);
  }

  /** A pass whose one save fails. */
  lemma FailsToSave(cfg: Config, slot: Id -> nat, s: System, id: Id)
    requires Reached(cfg, slot, s) && AtRest(s) && s.dirty == {id} && id in s.agents && s.agents[id].instanceUID == id
    ensures Reached(cfg, slot, s.(dirty := {}, tried := s.tried[id := ReportedOf(s.agents[id])]))
  {
    var a := s.agents[id];
    ReadsBack(cfg, slot, s, id);
    var s1 := s.(dirty := {}, active := true, tasks := {a});
    Extend(cfg, slot, s1, FailSave(a));
    var s2 := s1.(tasks := {}, tried := s.tried[id := ReportedOf(a)]);
    assert Next(cfg, slot, s1, FailSave(a)) == s2;
    Extend(cfg, slot, s2, Finish);
  }

  lemma SweepLocks(cfg: Config, slot: Id -> nat, s: System, id: Id, a: Agent, now: Time)
    requires Reached(cfg, slot, s) && s.locks == map[] && s.agents == map[id := a]
    ensures Reached(cfg, slot, s.(locks := map[slot(id) := Sweeping(now, {id}, Ready)]))
  {
    assert (set x | x in s.agents && slot(x) == slot(id)) == {id};
    Extend(cfg, slot, s, LockSweep(slot(id), now));
  }

  lemma SweepLapses(cfg: Config, slot: Id -> nat, s: System, id: Id, a: Agent, now: Time)
    requires Reached(cfg, slot, s) && s.locks == map[slot(id) := Sweeping(now, {id}, Ready)] && s.agents == map[id := a]
    requires Fleet.Lapses(cfg, a, now)
    ensures Reached(cfg, slot, s.(locks := map[slot(id) := Sweeping(now, {id}, Judge(id))],
                                  agents := map[id := a.(connected := false)], dirty := s.dirty + {id}))
  {
    var k, down, h := slot(id), a.(connected := false), Sweeping(now, {id}, Ready);
    var h1 := h.(stage := Lapsed(id));
    var s1 := s.(locks := map[k := h1], agents := map[id := down]);
    StepUnderLock(cfg, slot, s, k, h, id, Effect(Some(down), false, h1), s1);
    SweepMarks(cfg, slot, s1, id, down, now);
  }

  lemma SweepMarks(cfg: Config, slot: Id -> nat, s: System, id: Id, a: Agent, now: Time)
    requires Reached(cfg, slot, s) && s.locks == map[slot(id) := Sweeping(now, {id}, Lapsed(id))] && s.agents == map[id := a]
    ensures Reached(cfg, slot, s.(locks := map[slot(id) := Sweeping(now, {id}, Judge(id))], dirty := s.dirty + {id}))
  {
    var k, h, h' := slot(id), Sweeping(now, {id}, Lapsed(id)), Sweeping(now, {id}, Judge(id));
    assert s.agents[id := a] == s.agents;
    StepUnderLock(cfg, slot, s, k, h, id, Effect(Some(a), true, h'), s.(locks := map[k := h'], dirty := s.dirty + {id}));
  }

  lemma SweepRemoves(cfg: Config, slot: Id -> nat, s: System, id: Id, a: Agent, now: Time)
    requires Reached(cfg, slot, s) && s.locks == map[slot(id) := Sweeping(now, {id}, Judge(id))] && s.agents == map[id := a]
    requires Fleet.Evicts(cfg, a, now)
    ensures Reached(cfg, slot, s.(locks := map[slot(id) := Sweeping(now, {id}, Stage.Gone(id))], agents := map[]))
  {
    var k, h, h' := slot(id), Sweeping(now, {id}, Judge(id)), Sweeping(now, {id}, Stage.Gone(id));
    assert s.agents - {id} == map[];
    StepUnderLock(cfg, slot, s, k, h, id, Effect(None, false, h'), s.(locks := map[k := h'], agents := map[]));
  }

  /** A sweep that evicts the only agent. */
  lemma Evicts(cfg: Config, slot: Id -> nat, s: System, id: Id, a: Agent, now: Time)
    requires Reached(cfg, slot, s) && AtRest(s) && s.agents == map[id := a]
    requires Fleet.Lapses(cfg, a, now) && Fleet.Evicts(cfg, a, now)
    ensures Reached(cfg, slot, s.(agents := map[], dirty := s.dirty + {id}))
  {
    var k, down := slot(id), a.(connected := false);
    SweepLocks(cfg, slot, s, id, a, now);
    SweepLapses(cfg, slot, s.(locks := map[k := Sweeping(now, {id}, Ready)]), id, a, now);
    var s1 := s.(locks := map[k := Sweeping(now, {id}, Judge(id))], agents := map[id := down], dirty := s.dirty + {id});
    SweepRemoves(cfg, slot, s1, id, down, now);
    SweptAway(cfg, slot, s1.(locks := map[k := Sweeping(now, {id}, Stage.Gone(id))], agents := map[]), id, now);
  }

  lemma SweptAway(cfg: Config, slot: Id -> nat, s: System, id: Id, now: Time)
    requires s.locks == map[slot(id) := Sweeping(now, {id}, Stage.Gone(id))] && s.agents == map[] && id in s.dirty
    requires Reached(cfg, slot, s)
    ensures Reached(cfg, slot, s.(locks := map[]))
  {
    var k, h, h1 := slot(id), Sweeping(now, {id}, Stage.Gone(id)), Sweeping(now, {}, Ready);
    var e := Effect(None, true, h1);
    assert h.todo - {id} == {};
    assert EffectOf(cfg, None, h, id) == e;
    assert s.dirty + {id} == s.dirty && s.agents - {id} == map[];
    StepUnderLock(cfg, slot, s, k, h, id, e, s.(locks := map[k := h1]));
    Unlocks(cfg, slot, s.(locks := map[k := h1]), k, h1);
  }

  /** A pass that soft-deletes the one marked agent, which is gone. */
  lemma SoftDeletes(cfg: Config, slot: Id -> nat, s: System, id: Id, at: Time)
    requires Reached(cfg, slot, s) && AtRest(s) && s.dirty == {id} && id !in s.agents
    ensures Reached(cfg, slot, s.(dirty := {}, db := SoftDeleteTx(s.db, id, at)))
  {
    Extend(cfg, slot, s, Drain);
    var s1 := s.(active := true, todo := {id}, dirty := {});
    Extend(cfg, slot, s1, Get(id));
    var s2 := s1.(todo := {}, gone := {id});
    assert Next(cfg, slot, s1, Get(id)) == s2;
    Extend(cfg, slot, s2, SoftDeleteGone(id, at));
    var s3 := s2.(db := SoftDeleteTx(s.db, id, at), gone := {});
    assert Next(cfg, slot, s2, SoftDeleteGone(id, at)) == s3;
    Extend(cfg, slot, s3, Finish);
  }

  /** The agent has a row, last written at time written, whose soft deletion is mark. The runs below say no
      more of a database than this: Dafny 4.11 takes two map comprehensions with no keys to agree off their
      keys too, so two saves without config files must not be spelled out in one proof. */
  predicate HasRow(db: Db, id: Id, written: Time, mark: Option<Time>) {
    id in db.agents && db.agents[id].updatedAt == written && db.agents[id].evictedAt == mark
  }

  /** Registered and at rest, with nothing marked. */
  ghost function Resting(id: Id, a: Agent, db: Db): System {
    System(map[id := a], map[], {}, false, {}, {}, {}, db, map[id := a.lastSeen], map[id := ReportedOf(a)])
  }

  /** Gone from the registry and at rest. */
  ghost function Away(id: Id, dirty: set<Id>, db: Db, report: Reported): System {
    System(map[], map[], dirty, false, {}, {}, {}, db, map[id := 0], map[id := report])
  }

  /** Registered for the first time and marked. */
  ghost function Newcomer(id: Id): System {
    System(map[id := Arrived(id, 0)], map[], {id}, false, {}, {}, {}, EMPTY_DB, map[id := 0], map[])
  }

  lemma Arrives(cfg: Config, slot: Id -> nat, id: Id)
    ensures Reached(cfg, slot, Newcomer(id))
  {
    assert IsRun(cfg, slot, [START], []) && [START][0] == START;
    Reports(cfg, slot, START, id, 0);
    assert START.(agents := START.agents[id := Arrived(id, 0)], dirty := START.dirty + {id}, last := START.last[id := 0])
        == Newcomer(id);
  }

  lemma FirstLife(cfg: Config, slot: Id -> nat, id: Id) returns (db: Db)
    ensures Reached(cfg, slot, Resting(id, Arrived(id, 0), db)) && HasRow(db, id, 0, None)
  {
    var a := Arrived(id, 0);
    Arrives(cfg, slot, id);
    Saves(cfg, slot, Newcomer(id), id);
    db := SaveAgentTx(EMPTY_DB, a);
    assert Newcomer(id).(dirty := {}, db := db, tried := map[][id := ReportedOf(a)]) == Resting(id, a, db);
  }

  lemma Departs(cfg: Config, slot: Id -> nat, id: Id, a: Agent, db: Db, now: Time, at: Time)
    requires a.lastSeen == 0 && Fleet.Lapses(cfg, a, now) && Fleet.Evicts(cfg, a, now)
    requires Reached(cfg, slot, Resting(id, a, db))
    ensures Reached(cfg, slot, Away(id, {}, SoftDeleteTx(db, id, at), ReportedOf(a)))
  {
    var s := Resting(id, a, db);
    Evicts(cfg, slot, s, id, a, now);
    assert s.(agents := map[], dirty := s.dirty + {id}) == Away(id, {id}, db, ReportedOf(a));
    SoftDeletes(cfg, slot, Away(id, {id}, db, ReportedOf(a)), id, at);
  }

  /** Saving an agent again keeps the soft deletion of its row. */
  lemma SecondLife(cfg: Config, slot: Id -> nat, id: Id, db: Db, report: Reported, mark: Option<Time>, back: Time) returns (db': Db)
    requires back > 0 && Reached(cfg, slot, Away(id, {}, db, report)) && HasRow(db, id, 0, mark)
    ensures Reached(cfg, slot, Resting(id, Arrived(id, back), db')) && HasRow(db', id, back, mark)
    ensures db'.agents[id].durable == DurableOf(Arrived(id, back))
  {
    var b, s := Arrived(id, back), Away(id, {}, db, report);
    Reports(cfg, slot, s, id, back);
    var s' := System(map[id := b], map[], {id}, false, {}, {}, {}, db, map[id := back], map[id := report]);
    assert s.(agents := s.agents[id := b], dirty := s.dirty + {id}, last := s.last[id := back]) == s';
    Saves(cfg, slot, s', id);
    assert s'.tried[id := ReportedOf(b)] == map[id := ReportedOf(b)];
    db' := SaveAgentTx(db, b);
  }

  lemma EvictionTime(cfg: Config) returns (now: Time)
    ensures now > 0 && now > EvictAfter(cfg) && now > DisconnectThreshold(cfg)
  {
    var h, k := cfg.heartbeatInterval, cfg.staleMissedHeartbeats;
    assert h * k >= 0;
    now := h * k + h + h / 2 + 1;
  }

  /** Saved, evicted at time now, and soft-deleted. */
  lemma LivesAndDeparts(cfg: Config, slot: Id -> nat, id: Id, at: Time) returns (now: Time, db: Db)
    ensures now > 0 && HasRow(db, id, 0, Some(at))
    ensures Reached(cfg, slot, Away(id, {}, db, ReportedOf(Arrived(id, 0))))
  {
    now := EvictionTime(cfg);
    var saved := FirstLife(cfg, slot, id);
    Departs(cfg, slot, id, Arrived(id, 0), saved, now, at);
    db := SoftDeleteTx(saved, id, at);
  }

  /** Nothing is marked, no pass is running, and the agent is registered without a row. */
  ghost predicate WithoutARow(slot: Id -> nat, s: System, id: Id) {
    Quiescent(s) && Free(slot, s, id) && id in s.agents && id !in s.db.agents
  }

  lemma PurgeTakesTheRow(cfg: Config, slot: Id -> nat, id: Id, a: Agent, db: Db, before: Time) returns (s: System)
    requires Reached(cfg, slot, Resting(id, a, db)) && id !in PurgeTx(db, before).agents
    ensures Reached(cfg, slot, s) && WithoutARow(slot, s, id) && s == Resting(id, a, db).(db := PurgeTx(db, before))
  {
    Extend(cfg, slot, Resting(id, a, db), RemoveRows(Purge(before)));
    s := Next(cfg, slot, Resting(id, a, db), RemoveRows(Purge(before)));
  }

  /** In every configuration some run ends so by a purge, from a state in which the row was there and held
      what the registry shows. */
  lemma PurgedWhileRegistered(cfg: Config, slot: Id -> nat, id: Id) returns (was: System, s: System, cutoff: Time)
    ensures Reached(cfg, slot, was) && Quiescent(was) && id in was.agents && id in was.db.agents
    ensures was.db.agents[id].durable == DurableOf(was.agents[id])
    ensures Reached(cfg, slot, s) && WithoutARow(slot, s, id) && s == was.(db := PurgeTx(was.db, cutoff))
  {
    var back, left := LivesAndDeparts(cfg, slot, id, 0);
    var db := SecondLife(cfg, slot, id, left, ReportedOf(Arrived(id, 0)), Some(0), back);
    cutoff := 1;
    was := Resting(id, Arrived(id, back), db);
    s := PurgeTakesTheRow(cfg, slot, id, Arrived(id, back), db, cutoff);
  }

  /** And some run without a purge does, by one failed save. */
  lemma FailedSaveIsNotTriedAgain(cfg: Config, slot: Id -> nat, id: Id) returns (s: System)
    ensures Reached(cfg, slot, s) && WithoutARow(slot, s, id) && id in s.tried && s.db == EMPTY_DB
  {
    Arrives(cfg, slot, id);
    FailsToSave(cfg, slot, Newcomer(id), id);
    s := Newcomer(id).(dirty := {}, tried := map[][id := ReportedOf(Arrived(id, 0))]);
  }
}
