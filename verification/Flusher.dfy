/** The dirty tracker and one pass of the flusher, as objects. Flush.dfy proves what
    passes achieve when everything else runs between their steps; here a pass is one
    call, and its effect on each agent is stated exactly. */
module Flusher {
  import opened Fleet
  import opened Store
  import opened StoreRuns
  import Flush
  import Registry

  class DirtyTracker {
    var dirty: set<Id>

    constructor ()
      ensures dirty == {}
    {
      dirty := {};
    }

    method Mark(id: Id)
      modifies this
      ensures dirty == old(dirty) + {id}
    {
      dirty := dirty + {id};
    }

    /** Told a stretch of the registry's log, event by event, the tracker marks exactly the agents it has events of. */
    method Notify(log: seq<Event>)
      modifies this
      ensures forall id :: id in dirty <==> id in old(dirty) || EventsOf(log, id) != []
    {
      for i := 0 to |log|
        invariant forall id :: id in dirty <==> id in old(dirty) || EventsOf(log[..i], id) != []
      {
        assert log[..i + 1][..i] == log[..i];
        Mark(log[i].id);
      }
      assert log[..|log|] == log;
    }

    /** Returns each marked id once, in no fixed order, and clears the set. */
    method Drain() returns (ids: seq<Id>)
      modifies this
      ensures dirty == {}
      ensures forall id :: id in ids <==> id in old(dirty)
      ensures forall i, j :: 0 <= i < j < |ids| ==> ids[i] != ids[j]
    {
      ids := [];
      var left := dirty;
      while left != {}
        invariant left <= dirty
        invariant forall id :: id in ids <==> id in dirty && id !in left
        invariant forall i, j :: 0 <= i < j < |ids| ==> ids[i] != ids[j]
      {
        var id :| id in left;
        ids, left := ids + [id], left - {id};
      }
      dirty := {};
    }
  }

  // ----- no change goes unannounced -----

  /** Something written behind differs: whether the agent is registered, connected, or what it reports. */
  ghost predicate Changed(before: map<Id, Agent>, after: map<Id, Agent>, id: Id) {
    || (id in before) != (id in after)
    || (id in before && id in after
        && (before[id].connected != after[id].connected || Flush.ReportedOf(before[id]) != Flush.ReportedOf(after[id])))
  }

  lemma {:induction false} HasEvents(log: seq<Event>, k: nat)
    requires k < |log|
    ensures EventsOf(log, log[k].id) != []
  {
    if k < |log| - 1 {
      HasEvents(log[..|log| - 1], k);
    }
  }

  /** A message that carries nothing leaves what the agent reports as it was. */
  lemma BareMessage(cfg: Config, a: Agent, msg: Message, meta: ConnMeta, now: Time)
    requires msg.description.None? && msg.health.None? && msg.packages == map[] && msg.config == map[]
    ensures Flush.ReportedOf(Fold(cfg, a, msg, meta, now)) == Flush.ReportedOf(a)
  {
    assert FoldReports(Touch(a, msg, meta, now), msg) == Touch(a, msg, meta, now);
  }

  lemma PartsMention(a: seq<Event>, b: seq<Event>, c: seq<Event>, id: Id)
    requires (a != [] && a[0].id == id) || (b != [] && b[0].id == id) || (c != [] && c[0].id == id)
    ensures EventsOf(a + b + c, id) != []
  {
    EventsOfConcat(a, b, id);
    EventsOfConcat(a + b, c, id);
    if a != [] && a[0].id == id {
      HasEvents(a, 0);
    } else if b != [] && b[0].id == id {
      HasEvents(b, 0);
    } else {
      HasEvents(c, 0);
    }
  }

  /** A report that changes anything fires an event about the agent. */
  lemma ReportAnnounces(cfg: Config, a: Agent, msg: Message, meta: ConnMeta, now: Time)
    requires !a.connected || Flush.ReportedOf(Fold(cfg, a, msg, meta, now)) != Flush.ReportedOf(a)
    ensures EventsOf(ReportEvents(cfg, a, msg), a.instanceUID) != []
  {
    if msg.description.None? && msg.health.None? && msg.packages == map[] && msg.config == map[] {
      BareMessage(cfg, a, msg, meta, now);
    }
    PartsMention(ConnectEvents(a),
                 if msg.description.Some? then DescriptionEvents(cfg, a, msg.description.value) else [],
                 ReportsEvents(a.instanceUID, msg), a.instanceUID);
  }

  /** Every registry operation that changes something written behind adds to the agent's events. */
  lemma ChangesAreAnnounced(cfg: Config, s: State, op: Op, s': State, id: Id)
    requires Step(cfg, s, op, s') && Keyed(s.agents) && Changed(s.agents, s'.agents, id)
    ensures |EventsOf(s'.log, id)| > |EventsOf(s.log, id)|
  {
    match op
    case Sweep(_) =>
      assert EventsOf(s'.log, id) == EventsOf(s.log, id) + SweepEventsOf(cfg, s.agents, id, op.now);
    case SetConnected(_, connected) =>
      var fired := SetConnectedEvents(s.agents[id], connected);
      HasEvents(fired, 0);
      EventsOfConcat(s.log, fired, id);
    case Report(msg, meta, now) =>
      var known := Known(s.agents, id, now);
      var fired := ReportEvents(cfg, known, msg);
      FoldChecksIn(cfg, known, msg, meta, now);
      ReportAnnounces(cfg, known, msg, meta, now);
      EventsOfConcat(s.log, fired, id);
  }

  // ----- everything the store holds about one agent -----

  datatype Record = Record(row: Option<AgentRow>, session: Option<SessionRow>, files: map<string, ConfigRow>)

  ghost function RecordOf(db: Db, id: Id): Record {
    Record(if id in db.agents then Some(db.agents[id]) else None,
           if id in db.sessions then Some(db.sessions[id]) else None,
           FilesOf(db, id))
  }

  lemma SaveIsLocal(db: Db, a: Agent, x: Id)
    requires x != a.instanceUID
    ensures RecordOf(SaveAgentTx(db, a), x) == RecordOf(db, x)
  {
    SaveAgentFiles(db, a, x);
  }

  lemma SaveSeesOnlyItsOwn(db: Db, db': Db, a: Agent)
    requires RecordOf(db, a.instanceUID) == RecordOf(db', a.instanceUID)
    ensures RecordOf(SaveAgentTx(db, a), a.instanceUID) == RecordOf(SaveAgentTx(db', a), a.instanceUID)
  {
    SaveAgentFiles(db, a, a.instanceUID);
    SaveAgentFiles(db', a, a.instanceUID);
  }

  lemma SoftDeleteIsLocal(db: Db, id: Id, at: Time, x: Id)
    requires x != id
    ensures RecordOf(SoftDeleteTx(db, id, at), x) == RecordOf(db, x)
  {
  }

  lemma SoftDeleteSeesOnlyItsOwn(db: Db, db': Db, id: Id, at: Time)
    requires RecordOf(db, id) == RecordOf(db', id)
    ensures RecordOf(SoftDeleteTx(db, id, at), id) == RecordOf(SoftDeleteTx(db', id, at), id)
  {
  }

  /** What a pass that drained dirty leaves of one agent's record: a registered agent is saved and
      an evicted one soft-deleted, unless the write fails, and any other is left alone. */
  ghost function Flushed(db: Db, agents: map<Id, Agent>, dirty: set<Id>, at: Id -> Time, fails: Id -> bool, id: Id): Record {
    if id !in dirty then RecordOf(db, id)
    else if id in agents then RecordOf(Attempt(db, agents[id], fails), id)
    else RecordOf(Forget(db, id, at, fails), id)
  }

  /** tasks are the registered agents among ids, each once; evicted are the other ids. */
  ghost predicate Collected(agents: map<Id, Agent>, ids: seq<Id>, tasks: seq<Agent>, evicted: seq<Id>) {
    && DistinctUids(tasks)
    && (forall i :: 0 <= i < |tasks| ==> tasks[i].instanceUID in agents && agents[tasks[i].instanceUID] == tasks[i])
    && (forall id :: id in Uids(tasks) <==> id in ids && id in agents)
    && (forall id :: id in evicted <==> id in ids && id !in agents)
  }

  lemma CollectOneMore(agents: map<Id, Agent>, ids: seq<Id>, tasks: seq<Agent>, evicted: seq<Id>, id: Id)
    requires Keyed(agents) && Collected(agents, ids, tasks, evicted) && id !in ids
    ensures id in agents ==> Collected(agents, ids + [id], tasks + [agents[id]], evicted)
    ensures id !in agents ==> Collected(agents, ids + [id], tasks, evicted + [id])
  {
    if id in agents {
      assert (tasks + [agents[id]])[..|tasks|] == tasks;
      UidsHave(tasks, id);
    }
  }

  class Flusher {
    const registry: Registry.Registry
    const tracker: DirtyTracker
    const store: PostgresStore

    constructor (registry: Registry.Registry, tracker: DirtyTracker, store: PostgresStore)
      ensures this.registry == registry && this.tracker == tracker && this.store == store
    {
      this.registry, this.tracker, this.store := registry, tracker, store;
    }

    /** Splits drained ids into the agents to save and the ids to soft-delete. */
    method Collect(ids: seq<Id>) returns (tasks: seq<Agent>, evicted: seq<Id>)
      requires registry.Valid()
      requires forall i, j :: 0 <= i < j < |ids| ==> ids[i] != ids[j]
      ensures Collected(registry.Agents(), ids, tasks, evicted)
    {
      tasks, evicted := [], [];
      Registry.FlatKeyed(registry.slot, registry.shards);
      for n := 0 to |ids|
        invariant Collected(registry.Agents(), ids[..n], tasks, evicted)
      {
        var agent := registry.Get(ids[n]);
        assert ids[..n + 1] == ids[..n] + [ids[n]];
        CollectOneMore(registry.Agents(), ids[..n], tasks, evicted, ids[n]);
        if agent.None? {
          evicted := evicted + [ids[n]];
        } else {
          tasks := tasks + [agent.value];
        }
      }
      assert ids[..|ids|] == ids;
    }

    /** Saves every task; fails says whose write errs. The order does not matter: tasks are distinct. */
    method SaveAll(tasks: seq<Agent>, fails: Id -> bool)
      modifies store
      ensures store.Tables() == SaveEach(old(store.Tables()), tasks, fails)
    {
      ghost var was := store.Tables();
      for n := 0 to |tasks|
        invariant store.Tables() == SaveEach(was, tasks[..n], fails)
      {
        var failed := fails(tasks[n].instanceUID);
        var ok := store.SaveAgent(tasks[n], _ => failed);
        assert tasks[..n + 1][..n] == tasks[..n];
      }
      assert tasks[..|tasks|] == tasks;
    }

    method SoftDeleteAll(evicted: seq<Id>, at: Id -> Time, fails: Id -> bool)
      modifies store
      ensures store.Tables() == SoftDeleteEach(old(store.Tables()), evicted, at, fails)
    {
      ghost var was := store.Tables();
      for n := 0 to |evicted|
        invariant store.Tables() == SoftDeleteEach(was, evicted[..n], at, fails)
      {
        var ok := store.SoftDeleteAgent(evicted[n], at(evicted[n]), fails(evicted[n]));
        assert evicted[..n + 1][..n] == evicted[..n];
      }
      assert evicted[..|evicted|] == evicted;
    }

    /** One pass: drain, read back, save, soft-delete; at is the clock when each soft delete is issued. */
    method FlushOnce(at: Id -> Time, fails: Id -> bool)
      requires registry.Valid()
      modifies tracker, store
      ensures tracker.dirty == {}
      ensures forall id :: RecordOf(store.Tables(), id)
                        == Flushed(old(store.Tables()), registry.Agents(), old(tracker.dirty), at, fails, id)
    {
      ghost var db, dirty := store.Tables(), tracker.dirty;
      var ids := tracker.Drain();
      var tasks, evicted := Collect(ids);
      SaveAll(tasks, fails);
      SoftDeleteAll(evicted, at, fails);
      forall id ensures RecordOf(store.Tables(), id) == Flushed(db, registry.Agents(), dirty, at, fails, id) {
        PassOnOne(db, registry.Agents(), ids, dirty, tasks, evicted, at, fails, id);
      }
    }
  }

  ghost function Attempt(db: Db, a: Agent, fails: Id -> bool): Db {
    if fails(a.instanceUID) then db else SaveAgentTx(db, a)
  }

  ghost function SaveEach(db: Db, tasks: seq<Agent>, fails: Id -> bool): Db {
    if tasks == [] then db else Attempt(SaveEach(db, tasks[..|tasks| - 1], fails), tasks[|tasks| - 1], fails)
  }

  ghost function Forget(db: Db, id: Id, at: Id -> Time, fails: Id -> bool): Db {
    if fails(id) then db else SoftDeleteTx(db, id, at(id))
  }

  ghost function SoftDeleteEach(db: Db, evicted: seq<Id>, at: Id -> Time, fails: Id -> bool): Db {
    if evicted == [] then db
    else Forget(SoftDeleteEach(db, evicted[..|evicted| - 1], at, fails), evicted[|evicted| - 1], at, fails)
  }

  lemma {:induction false} SavesOfOthers(db: Db, tasks: seq<Agent>, fails: Id -> bool, id: Id)
    requires id !in Uids(tasks)
    ensures RecordOf(SaveEach(db, tasks, fails), id) == RecordOf(db, id)
  {
    if tasks != [] {
      var most, last := tasks[..|tasks| - 1], tasks[|tasks| - 1];
      SavesOfOthers(db, most, fails, id);
      SaveIsLocal(SaveEach(db, most, fails), last, id);
    }
  }

  lemma {:induction false} SavesOfOwn(db: Db, tasks: seq<Agent>, fails: Id -> bool, a: Agent)
    requires DistinctUids(tasks) && a in tasks
    ensures RecordOf(SaveEach(db, tasks, fails), a.instanceUID) == RecordOf(Attempt(db, a, fails), a.instanceUID)
  {
    var most, last := tasks[..|tasks| - 1], tasks[|tasks| - 1];
    if last == a {
      UidsHave(most, a.instanceUID);
      SavesOfOthers(db, most, fails, a.instanceUID);
      SaveSeesOnlyItsOwn(SaveEach(db, most, fails), db, a);
    } else {
      assert a in most;
      SavesOfOwn(db, most, fails, a);
      SaveIsLocal(SaveEach(db, most, fails), last, a.instanceUID);
    }
  }

  lemma {:induction false} SoftDeletesOne(db: Db, evicted: seq<Id>, at: Id -> Time, fails: Id -> bool, id: Id)
    ensures RecordOf(SoftDeleteEach(db, evicted, at, fails), id)
         == RecordOf(if id in evicted then Forget(db, id, at, fails) else db, id)
  {
    if evicted != [] {
      var most, last := evicted[..|evicted| - 1], evicted[|evicted| - 1];
      SoftDeletesOne(db, most, at, fails, id);
      var mid := SoftDeleteEach(db, most, at, fails);
      if last != id {
        SoftDeleteIsLocal(mid, last, at(last), id);
      } else if !fails(id) {
        SoftDeleteTwice(db, mid, id, at(id), id in most);
      }
    }
  }

  lemma PassOnOne(db: Db, agents: map<Id, Agent>, ids: seq<Id>, dirty: set<Id>, tasks: seq<Agent>, evicted: seq<Id>,
                  at: Id -> Time, fails: Id -> bool, id: Id)
    requires Collected(agents, ids, tasks, evicted) && (forall x :: x in ids <==> x in dirty)
    ensures RecordOf(SoftDeleteEach(SaveEach(db, tasks, fails), evicted, at, fails), id)
         == Flushed(db, agents, dirty, at, fails, id)
  {
    var saved := SaveEach(db, tasks, fails);
    SoftDeletesOne(saved, evicted, at, fails, id);
    if id in Uids(tasks) {
      UidsHave(tasks, id);
      SavesOfOwn(db, tasks, fails, agents[id]);
    } else {
      SavesOfOthers(db, tasks, fails, id);
      SoftDeleteSeesOnlyItsOwn(saved, db, id, at(id));
    }
  }

  lemma SoftDeleteTwice(was: Db, before: Db, id: Id, at: Time, already: bool)
    requires RecordOf(before, id) == RecordOf(if already then SoftDeleteTx(was, id, at) else was, id)
    ensures RecordOf(SoftDeleteTx(before, id, at), id) == RecordOf(SoftDeleteTx(was, id, at), id)
  {
  }
}
