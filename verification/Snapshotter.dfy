/** The session snapshotter: which agents a pass writes, what it remembers of its
    writes, and the keepalive interval it works to. */
module Snapshotter {
  import opened Fleet
  import opened Store
  import opened StoreRuns

  // ----- the keepalive interval -----

  /** Integer division as Go does it, toward zero. */
  function Quotient(a: int, b: int): int
    requires b > 0
  {
    if a >= 0 then a / b else -((-a) / b)
  }

  function KeepaliveInterval(disconnectAfter: Time, tick: Time): Time {
    var twoThirds := Quotient(disconnectAfter * 2, 3);
    var limit := disconnectAfter - tick;
    var clamped := if twoThirds > limit then limit else twoThirds;
    if clamped < 0 then 0 else clamped
  }

  /** The interval is never negative, never longer than a heartbeat, and one tick more
      still fits under the threshold; when no interval can fit it is 0, every tick. It is
      the longest such interval up to two thirds of the threshold. */
  lemma KeepaliveFits(cfg: Config, tick: Time)
    requires tick > 0
    ensures var t := DisconnectThreshold(cfg);
            var k := KeepaliveInterval(t, tick);
            && 0 <= k <= cfg.heartbeatInterval
            && (tick <= t <==> k + tick <= t)
            && (tick > t ==> k == 0)
            && 3 * k <= 2 * t
            && (forall k' :: k < k' && k' + tick <= t ==> 3 * k' > 2 * t)
  {
  }

  lemma KeepaliveLeavesATick(disconnectAfter: Time, tick: Time)
    requires 0 < tick <= disconnectAfter
    ensures 0 <= KeepaliveInterval(disconnectAfter, tick) <= disconnectAfter - tick
  {
  }

  // ----- bookkeeping -----

  /** What one pass last wrote for an agent, and the pass that last saw it. */
  datatype SessionWrite = SessionWrite(lastSeen: Time, gen: nat)

  datatype Memory = Memory(written: map<Id, SessionWrite>, gen: nat)

  const BLANK := Memory(map[], 0)

  predicate IsDue(written: map<Id, SessionWrite>, id: Id, now: Time, keepalive: Time) {
    id !in written || now - written[id].lastSeen >= keepalive
  }

  function DueOf(written: map<Id, SessionWrite>, agents: seq<Agent>, now: Time, keepalive: Time): seq<Agent> {
    if agents == [] then []
    else
      var rest, a := DueOf(written, agents[..|agents| - 1], now, keepalive), agents[|agents| - 1];
      if IsDue(written, a.instanceUID, now, keepalive) then rest + [a] else rest
  }

  /** Seen agents are stamped with the new pass; the rest are forgotten. */
  function Restamped(written: map<Id, SessionWrite>, ids: set<Id>, gen: nat): map<Id, SessionWrite> {
    map id | id in written :: if id in ids then written[id].(gen := gen) else written[id]
  }

  lemma RestampOne(written: map<Id, SessionWrite>, ids: set<Id>, id: Id, gen: nat)
    ensures Restamped(written, ids + {id}, gen)
         == if id in written then Restamped(written, ids, gen)[id := written[id].(gen := gen)] else Restamped(written, ids, gen)
    ensures id in written <==> id in Restamped(written, ids, gen)
    ensures id in written ==> Restamped(written, ids, gen)[id].lastSeen == written[id].lastSeen
  {
  }

  /** Dropping what the pass did not stamp leaves the listed entries. */
  lemma ForgetStale(written: map<Id, SessionWrite>, ids: set<Id>, gen: nat)
    requires gen > 0 && forall id :: id in written ==> written[id].gen < gen
    ensures var all := Restamped(written, ids, gen);
            all - (set id | id in all && all[id].gen != gen) == AfterDue(Memory(written, gen - 1), ids).written
  {
  }

  function AfterDue(m: Memory, ids: set<Id>): Memory {
    Memory(map id | id in m.written && id in ids :: m.written[id].(gen := m.gen + 1), m.gen + 1)
  }

  function Record(m: Memory, a: Agent): Memory {
    m.(written := m.written[a.instanceUID := SessionWrite(a.lastSeen, m.gen)])
  }

  /** One write of a pass: it may fail, and it does fail without an agents row. */
  function WriteOne(m: Memory, db: Db, a: Agent, fails: Id -> bool): (Memory, Db) {
    if fails(a.instanceUID) || a.instanceUID !in db.agents then (m, db)
    else (Record(m, a), SaveSessionTx(db, a))
  }

  function WriteAll(m: Memory, db: Db, due: seq<Agent>, fails: Id -> bool): (Memory, Db) {
    if due == [] then (m, db)
    else
      var (m1, db1) := WriteAll(m, db, due[..|due| - 1], fails);
      WriteOne(m1, db1, due[|due| - 1], fails)
  }

  function Pass(m: Memory, db: Db, list: seq<Agent>, now: Time, keepalive: Time, fails: Id -> bool): (Memory, Db) {
    WriteAll(AfterDue(m, Uids(list)), db, DueOf(m.written, list, now, keepalive), fails)
  }

  class SessionSnapshotter {
    const keepalive: Time
    const store: PostgresStore
    var written: map<Id, SessionWrite>
    var gen: nat

    /** No entry claims a pass that has not happened, so a new pass number is unused. */
    ghost predicate Valid()
      reads this
    {
      forall id :: id in written ==> written[id].gen <= gen
    }

    ghost function Mem(): Memory
      reads this
    {
      Memory(written, gen)
    }

    constructor (disconnectAfter: Time, tick: Time, store: PostgresStore)
      ensures Valid() && Mem() == BLANK && this.store == store
      ensures keepalive == KeepaliveInterval(disconnectAfter, tick)
    {
      keepalive := KeepaliveInterval(disconnectAfter, tick);
      this.store := store;
      written, gen := map[], 0;
    }

    /** Selects the agents to write and forgets those no longer listed. */
    method Due(agents: seq<Agent>, now: Time) returns (due: seq<Agent>)
      requires Valid()
      modifies this
      ensures Valid()
      ensures due == DueOf(old(written), agents, now, keepalive)
      ensures Mem() == AfterDue(old(Mem()), Uids(agents))
    {
      gen := gen + 1;
      due := [];
      ghost var was := written;
      for i := 0 to |agents|
        invariant written == Restamped(was, Uids(agents[..i]), gen)
        invariant due == DueOf(was, agents[..i], now, keepalive)
        invariant gen == old(gen) + 1
      {
        assert agents[..i + 1][..i] == agents[..i];
        var id := agents[i].instanceUID;
        RestampOne(was, Uids(agents[..i]), id, gen);
        if id in written {
          written := written[id := written[id].(gen := gen)];
          if now - written[id].lastSeen < keepalive { continue; }
        }
        due := due + [agents[i]];
      }
      assert agents[..|agents|] == agents;
      ForgetStale(was, Uids(agents), gen);
      var stale := set id | id in written && written[id].gen != gen;
      written := written - stale;
    }

    method RecordWritten(agent: Agent)
      requires Valid()
      modifies this
      ensures Valid() && Mem() == Record(old(Mem()), agent)
    {
      written := written[agent.instanceUID := SessionWrite(agent.lastSeen, gen)];
    }

    /** One pass; fails says whose write the database refuses. */
    method SnapshotOnce(agents: seq<Agent>, now: Time, fails: Id -> bool)
      requires Valid()
      modifies this, store
      ensures Valid()
      ensures (Mem(), store.Tables()) == Pass(old(Mem()), old(store.Tables()), agents, now, keepalive, fails)
    {
      var due := Due(agents, now);
      ghost var m, db := Mem(), store.Tables();
      for i := 0 to |due|
        invariant Valid()
        invariant (Mem(), store.Tables()) == WriteAll(m, db, due[..i], fails)
      {
        assert due[..i + 1][..i] == due[..i];
        var ok := store.SaveSession(due[i], fails(due[i].instanceUID));
        if ok {
          RecordWritten(due[i]);
        }
      }
      assert due[..|due|] == due;
    }
  }

  // ----- what every sequence of passes keeps -----

  /** A pass, or any write of the store by anyone else; rows are not deleted. */
  datatype Move =
    | PassOver(list: seq<Agent>, now: Time, fails: Id -> bool)
    | Elsewhere(op: StoreOp)

  datatype Course = Course(memory: Memory, db: Db, listed: set<Id>)

  function Advance(c: Course, keepalive: Time, move: Move): Course {
    match move
    case PassOver(list, now, fails) =>
      var (m, db) := Pass(c.memory, c.db, list, now, keepalive, fails);
      Course(m, db, Uids(list))
    case Elsewhere(op) =>
      if op.Delete? || op.Purge? then c else c.(db := Apply(c.db, op))
  }

  function Follow(db: Db, keepalive: Time, moves: seq<Move>): Course {
    if moves == [] then Course(BLANK, db, {})
    else Advance(Follow(db, keepalive, moves[..|moves| - 1]), keepalive, moves[|moves| - 1])
  }

  /** Tracked agents were in the last listing, and no tracked time is ahead of the stored one. */
  ghost predicate Honest(c: Course) {
    && SessionsFollow(c.db)
    && c.memory.written.Keys <= c.listed
    && (forall id :: id in c.memory.written ==> TrackedBehind(c.memory.written[id], c.db, id))
  }

  ghost predicate TrackedBehind(w: SessionWrite, db: Db, id: Id) {
    id in db.sessions && w.lastSeen <= db.sessions[id].updatedAt
  }

  lemma WriteOneHonest(m: Memory, db: Db, a: Agent, fails: Id -> bool, listed: set<Id>)
    requires Honest(Course(m, db, listed)) && a.instanceUID in listed
    ensures var (m', db') := WriteOne(m, db, a, fails); Honest(Course(m', db', listed))
    ensures WriteOne(m, db, a, fails).1.agents == db.agents
  {
  }

  lemma {:induction false} WriteAllHonest(m: Memory, db: Db, due: seq<Agent>, fails: Id -> bool, listed: set<Id>)
    requires Honest(Course(m, db, listed)) && Uids(due) <= listed
    ensures var (m', db') := WriteAll(m, db, due, fails); Honest(Course(m', db', listed))
  {
    if due != [] {
      var n := |due| - 1;
      WriteAllHonest(m, db, due[..n], fails, listed);
      var (m1, db1) := WriteAll(m, db, due[..n], fails);
      WriteOneHonest(m1, db1, due[n], fails, listed);
    }
  }

  lemma {:induction false} DueAreListed(written: map<Id, SessionWrite>, agents: seq<Agent>, now: Time, keepalive: Time)
    ensures Uids(DueOf(written, agents, now, keepalive)) <= Uids(agents)
  {
    if agents != [] {
      var n := |agents| - 1;
      DueAreListed(written, agents[..n], now, keepalive);
      var rest := DueOf(written, agents[..n], now, keepalive);
      assert (rest + [agents[n]])[..|rest|] == rest;
    }
  }

  lemma PassHonest(c: Course, keepalive: Time, move: Move)
    requires Honest(c) && move.PassOver?
    ensures Honest(Advance(c, keepalive, move))
  {
    var listed := Uids(move.list);
    DueAreListed(c.memory.written, move.list, move.now, keepalive);
    WriteAllHonest(AfterDue(c.memory, listed), c.db, DueOf(c.memory.written, move.list, move.now, keepalive), move.fails, listed);
  }

  lemma ElsewhereHonest(c: Course, op: StoreOp)
    requires Honest(c) && !op.Delete? && !op.Purge?
    ensures Honest(c.(db := Apply(c.db, op)))
  {
    StepSessionsFollow(c.db, op);
    var db := Apply(c.db, op);
    forall id | id in c.memory.written ensures TrackedBehind(c.memory.written[id], db, id) {
      assert TrackedBehind(c.memory.written[id], c.db, id);
      StepAdvances(c.db, op, id);
    }
  }

  /** Over every sequence of passes, failed writes and other writers included: an agent is
      tracked only if the last listing held it, and never ahead of its stored session time. */
  lemma {:induction false} BookkeepingHolds(db: Db, keepalive: Time, moves: seq<Move>)
    requires SessionsFollow(db)
    ensures Honest(Follow(db, keepalive, moves))
  {
    if moves != [] {
      var n := |moves| - 1;
      BookkeepingHolds(db, keepalive, moves[..n]);
      var c := Follow(db, keepalive, moves[..n]);
      match moves[n]
      case PassOver(_, _, _) => PassHonest(c, keepalive, moves[n]);
      case Elsewhere(op) => if !op.Delete? && !op.Purge? { ElsewhereHonest(c, op); }
    }
  }

  // ----- a failed write is retried -----

  lemma {:induction false} FailedWriteForgets(m: Memory, db: Db, due: seq<Agent>, fails: Id -> bool, id: Id)
    requires fails(id) || id !in db.agents
    ensures var (m', db') := WriteAll(m, db, due, fails);
            && db'.agents == db.agents
            && (id in m'.written <==> id in m.written)
            && (id in m.written ==> m'.written[id] == m.written[id])
  {
    if due != [] {
      FailedWriteForgets(m, db, due[..|due| - 1], fails, id);
    }
  }

  lemma {:induction false} DueExactly(written: map<Id, SessionWrite>, agents: seq<Agent>, now: Time, keepalive: Time, a: Agent)
    ensures a in DueOf(written, agents, now, keepalive) <==> a in agents && IsDue(written, a.instanceUID, now, keepalive)
  {
    if agents != [] {
      var n := |agents| - 1;
      DueExactly(written, agents[..n], now, keepalive, a);
      assert agents == agents[..n] + [agents[n]];
    }
  }

  /** An agent that came due and whose write failed is due again at every later pass that
      lists it, until a write succeeds. */
  lemma FailedWriteIsRetried(m: Memory, db: Db, list: seq<Agent>, now: Time, keepalive: Time, fails: Id -> bool,
                             a: Agent, list': seq<Agent>, now': Time, a': Agent)
    requires a in DueOf(m.written, list, now, keepalive) && (fails(a.instanceUID) || a.instanceUID !in db.agents)
    requires now <= now' && a' in list' && a'.instanceUID == a.instanceUID
    ensures a' in DueOf(Pass(m, db, list, now, keepalive, fails).0.written, list', now', keepalive)
  {
    DueExactly(m.written, list, now, keepalive, a);
    FailedWriteForgets(AfterDue(m, Uids(list)), db, DueOf(m.written, list, now, keepalive), fails, a.instanceUID);
    DueExactly(Pass(m, db, list, now, keepalive, fails).0.written, list', now', keepalive, a');
  }
}
