/** Exactly when stored sessions stay fresh. An agent that keeps checking in can still be
    evicted between two check-ins, if they may be further apart than eviction allows; its
    session is then forgotten, and unless a pass had just written it the next write comes
    too late. */
module FreshnessLimit {
  import opened Fleet
  import opened Store
  import opened StoreRuns
  import opened Snapshotter
  import opened Freshness

  ghost function Keepalive(cfg: Config, tick: Time): Time {
    KeepaliveInterval(DisconnectThreshold(cfg), tick)
  }

  /** Passes a tick apart, and check-ins at most the threshold minus a tick apart. */
  ghost predicate IsPunctual(cfg: Config, tick: Time, id: Id, hs: seq<History>, acts: seq<Action>) {
    IsCourse(cfg, Keepalive(cfg, tick), id, tick, DisconnectThreshold(cfg) - tick, hs, acts)
  }

  /** The session row a covered agent has in the store is not older than the threshold. */
  ghost predicate Young(cfg: Config, id: Id, s: Replica) {
    id in s.covered ==> id in s.db.sessions && s.now - s.db.sessions[id].updatedAt <= DisconnectThreshold(cfg)
  }

  ghost predicate AlwaysFresh(cfg: Config, tick: Time) {
    forall id: Id, hs: seq<History>, acts: seq<Action> :: IsPunctual(cfg, tick, id, hs, acts) ==> Young(cfg, id, hs[|acts|].s)
  }

  /** The longest check-in gap does not exceed the eviction age, or a pass always catches the last check-in
      before eviction. */
  predicate LeavesRoom(cfg: Config, tick: Time) {
    || DisconnectThreshold(cfg) - tick <= EvictAfter(cfg)
    || tick + KeepaliveInterval(DisconnectThreshold(cfg), tick) <= cfg.heartbeatInterval + 2
  }

  lemma RoomIsRoomy(cfg: Config, tick: Time)
    requires 0 < tick < DisconnectThreshold(cfg) && LeavesRoom(cfg, tick)
    ensures Roomy(cfg, Keepalive(cfg, tick), tick, DisconnectThreshold(cfg) - tick)
  {
    KeepaliveLeavesATick(DisconnectThreshold(cfg), tick);
    if DisconnectThreshold(cfg) - tick > EvictAfter(cfg) {
      TightSettings(cfg, tick);
    }
  }

  lemma FreshWithRoom(cfg: Config, tick: Time)
    requires 0 < tick < DisconnectThreshold(cfg) && LeavesRoom(cfg, tick)
    ensures AlwaysFresh(cfg, tick)
  {
    RoomIsRoomy(cfg, tick);
    forall id: Id, hs: seq<History>, acts: seq<Action> | IsPunctual(cfg, tick, id, hs, acts) ensures Young(cfg, id, hs[|acts|].s) {
      if id in hs[|acts|].s.covered {
        StoredSessionsStayFresh(cfg, tick, id, tick, DisconnectThreshold(cfg) - tick, hs, acts, |acts|);
      }
    }
  }

  // ----- stale otherwise: one course for every such configuration -----

  ghost predicate Reached(cfg: Config, tick: Time, id: Id, h: History) {
    exists hs: seq<History>, acts: seq<Action> :: IsPunctual(cfg, tick, id, hs, acts) && hs[|acts|] == h
  }

  lemma ExtendCourse(cfg: Config, keepalive: Time, id: Id, span: Time, gap: Time, hs: seq<History>, acts: seq<Action>, act: Action,
                     next: History)
    requires IsCourse(cfg, keepalive, id, span, gap, hs, acts)
    requires Enabled(hs[|acts|].s, act) && Spares(hs[|acts|].s, act, id) && OnTime(id, span, gap, next)
    requires next == Forward(cfg, keepalive, id, hs[|acts|], act)
    ensures IsCourse(cfg, keepalive, id, span, gap, hs + [next], acts + [act])
  {
    var hs', acts' := hs + [next], acts + [act];
    forall i | 0 <= i < |acts'|
      ensures Enabled(hs'[i].s, acts'[i]) && Spares(hs'[i].s, acts'[i], id) && hs'[i + 1] == Forward(cfg, keepalive, id, hs'[i], acts'[i])
    {
      if i < |acts| {
        assert hs'[i] == hs[i] && hs'[i + 1] == hs[i + 1] && acts'[i] == acts[i];
      }
    }
  }

  lemma Extend(cfg: Config, tick: Time, id: Id, h: History, act: Action)
    requires Reached(cfg, tick, id, h) && Enabled(h.s, act) && Spares(h.s, act, id)
    requires OnTime(id, tick, DisconnectThreshold(cfg) - tick, Forward(cfg, Keepalive(cfg, tick), id, h, act))
    ensures Reached(cfg, tick, id, Forward(cfg, Keepalive(cfg, tick), id, h, act))
  {
    var next := Forward(cfg, Keepalive(cfg, tick), id, h, act);
    var hs: seq<History>, acts: seq<Action> :| IsPunctual(cfg, tick, id, hs, acts) && hs[|acts|] == h;
    ExtendCourse(cfg, Keepalive(cfg, tick), id, tick, DisconnectThreshold(cfg) - tick, hs, acts, act, next);
    assert IsPunctual(cfg, tick, id, hs + [next], acts + [act]);
    assert (hs + [next])[|acts + [act]|] == next;
  }

  /** The agent is registered, its session was stored at time 0, and passes have found nothing due. */
  ghost function Quiet(id: Id, a: Agent, db: Db, gen: nat, now: Time): History {
    History(Replica(now, map[id := a], Memory(map[id := SessionWrite(0, gen)], gen), Idle, now, {id}, db), Some(a.lastSeen))
  }

  /** The agent is evicted and forgotten; passes go on without it. */
  ghost function Gone(id: Id, db: Db, gen: nat, now: Time): History {
    History(Replica(now, map[], Memory(map[], gen), Idle, now, {id}, db), Some(1))
  }

  /** From an idle state, time passes and a pass with nothing to write runs. */
  lemma EmptyPass(cfg: Config, tick: Time, id: Id, h: History, to: Time, list: seq<Agent>, h': History)
    requires Reached(cfg, tick, id, h) && h.s.pass.Idle? && h.s.now <= to && h.s.covered == {id}
    requires OnTime(id, tick, DisconnectThreshold(cfg) - tick, h.(s := h.s.(now := to))) && tick > 0
    requires Lists(list, h.s.agents)
    requires DueOf(h.s.memory.written, list, to, KeepaliveInterval(DisconnectThreshold(cfg), tick)) == []
    requires h' == h.(s := h.s.(now := to, anchor := to, memory := AfterDue(h.s.memory, Uids(list)),
                                covered := h.s.covered + Uids(list)))
    ensures Reached(cfg, tick, id, h')
  {
    Extend(cfg, tick, id, h, Tick(to));
    var h1 := Forward(cfg, Keepalive(cfg, tick), id, h, Tick(to));
    Extend(cfg, tick, id, h1, Begin(list));
    var h2 := Forward(cfg, Keepalive(cfg, tick), id, h1, Begin(list));
    Extend(cfg, tick, id, h2, End);
    assert Forward(cfg, Keepalive(cfg, tick), id, h2, End) == h';
  }

  lemma ListOfOne(id: Id, a: Agent)
    requires a.instanceUID == id
    ensures Lists([a], map[id := a]) && Uids([a]) == {id}
  {
  }

  lemma ListOfNone()
    ensures Lists([], map[]) && Uids([]) == {}
  {
  }

  lemma NothingDue(id: Id, a: Agent, gen: nat, now: Time, keepalive: Time)
    requires a.instanceUID == id && now < keepalive
    ensures DueOf(map[id := SessionWrite(0, gen)], [a], now, keepalive) == []
  {
  }

  lemma OneDue(a: Agent, now: Time, keepalive: Time)
    ensures DueOf(map[], [a], now, keepalive) == [a]
  {
  }

  /** While the keepalive has not run out, passes may go on without writing. */
  lemma {:induction false} StaysQuiet(cfg: Config, tick: Time, id: Id, a: Agent, db: Db, gen: nat, start: Time, stop: Time)
    requires 0 < tick && a.instanceUID == id && a.lastSeen == 1 && 1 <= start <= stop
    requires stop < KeepaliveInterval(DisconnectThreshold(cfg), tick) && stop <= 1 + DisconnectThreshold(cfg) - tick
    requires Reached(cfg, tick, id, Quiet(id, a, db, gen, start))
    ensures Reached(cfg, tick, id, Quiet(id, a, db, gen + (stop - start), stop))
    decreases stop - start
  {
    if start < stop {
      var k := KeepaliveInterval(DisconnectThreshold(cfg), tick);
      ListOfOne(id, a);
      NothingDue(id, a, gen, start + 1, k);
      var h, h' := Quiet(id, a, db, gen, start), Quiet(id, a, db, gen + 1, start + 1);
      assert h'.s.memory == AfterDue(h.s.memory, {id});
      EmptyPass(cfg, tick, id, h, start + 1, [a], h');
      StaysQuiet(cfg, tick, id, a, db, gen + 1, start + 1, stop);
    }
  }

  lemma {:induction false} StaysGone(cfg: Config, tick: Time, id: Id, db: Db, gen: nat, start: Time, stop: Time)
    requires 0 < tick && 1 <= start <= stop <= 1 + DisconnectThreshold(cfg) - tick
    requires Reached(cfg, tick, id, Gone(id, db, gen, start))
    ensures Reached(cfg, tick, id, Gone(id, db, gen + (stop - start), stop))
    decreases stop - start
  {
    if start < stop {
      ListOfNone();
      var h, h' := Gone(id, db, gen, start), Gone(id, db, gen + 1, start + 1);
      assert h'.s.memory == AfterDue(h.s.memory, {});
      EmptyPass(cfg, tick, id, h, start + 1, [], h');
      StaysGone(cfg, tick, id, db, gen + 1, start + 1, stop);
    }
  }

  function Hello(id: Id): Message {
    Message(Some(id), 0, 0, None, None, map[], map[])
  }

  const NO_META := ConnMeta("", "", false, "")

  /** A store that already has the agent's rows, as of time 0 or before. */
  ghost predicate HasRows(db: Db, id: Id) {
    SessionsFollow(db) && id in db.agents && db.sessions[id].updatedAt <= 0
  }

  lemma SomeStoreHasRows(id: Id) returns (db: Db)
    ensures HasRows(db, id)
  {
    var a := Fresh(id, 0);
    db := Apply(EMPTY_DB, SaveAgent(a));
    StepSessionsFollow(EMPTY_DB, SaveAgent(a));
  }

  lemma CheckInOf(cfg: Config, agents: map<Id, Agent>, id: Id, now: Time) returns (a: Agent)
    ensures ApplyOp(cfg, agents, Op.Report(Hello(id), NO_META, now)) == agents[id := a]
    ensures a.instanceUID == Known(agents, id, now).instanceUID && a.lastSeen == now
  {
    a := Fold(cfg, Known(agents, id, now), Hello(id), NO_META, now);
    FoldChecksIn(cfg, Known(agents, id, now), Hello(id), NO_META, now);
  }

  ghost function First(id: Id, a: Agent, db: Db): History {
    History(Replica(0, map[id := a], BLANK, Idle, 0, {}, db), Some(0))
  }

  /** The agent's first pass stores its session at time 0. */
  ghost function Stored(id: Id, a: Agent, db: Db): History {
    History(Replica(0, map[id := a], Memory(map[id := SessionWrite(0, 1)], 1), Idle, 0, {id}, db), Some(0))
  }

  lemma FirstPass(cfg: Config, tick: Time, id: Id, a: Agent, db: Db)
    requires 0 < tick < DisconnectThreshold(cfg) && HasRows(db, id) && a.instanceUID == id && a.lastSeen == 0
    requires Reached(cfg, tick, id, First(id, a, db))
    ensures Reached(cfg, tick, id, Stored(id, a, SaveSessionTx(db, a)))
  {
    var h := First(id, a, db);
    ListOfOne(id, a);
    OneDue(a, 0, KeepaliveInterval(DisconnectThreshold(cfg), tick));
    Extend(cfg, tick, id, h, Begin([a]));
    var h1 := Forward(cfg, Keepalive(cfg, tick), id, h, Begin([a]));
    assert h1.s.pass == Passing(0, {id}, [a]) && h1.s.memory == Memory(map[], 1);
    Extend(cfg, tick, id, h1, Land(0));
    var h2 := Forward(cfg, Keepalive(cfg, tick), id, h1, Land(0));
    assert h2.s.pass == Passing(0, {id}, []) && h2.s.memory == Memory(map[id := SessionWrite(0, 1)], 1);
    Extend(cfg, tick, id, h2, End);
    assert Forward(cfg, Keepalive(cfg, tick), id, h2, End) == Stored(id, a, SaveSessionTx(db, a));
  }

  lemma Opening(cfg: Config, tick: Time, id: Id) returns (a: Agent, db: Db)
    requires 0 < tick < DisconnectThreshold(cfg)
    ensures Reached(cfg, tick, id, Stored(id, a, db)) && a.instanceUID == id
    ensures id in db.sessions && db.sessions[id].updatedAt == 0
  {
    var db0 := SomeStoreHasRows(id);
    var h := History(Replica(0, map[], BLANK, Idle, 0, {}, db0), None);
    assert IsPunctual(cfg, tick, id, [h], []) && [h][0] == h;
    a := CheckInOf(cfg, map[], id, 0);
    Extend(cfg, tick, id, h, CheckIn(Hello(id), NO_META));
    assert Forward(cfg, Keepalive(cfg, tick), id, h, CheckIn(Hello(id), NO_META)) == First(id, a, db0);
    FirstPass(cfg, tick, id, a, db0);
    db := SaveSessionTx(db0, a);
  }

  lemma ChecksInAgain(cfg: Config, tick: Time, id: Id, a: Agent, db: Db) returns (b: Agent)
    requires 1 < tick && tick + 1 < DisconnectThreshold(cfg)
    requires a.instanceUID == id && Reached(cfg, tick, id, Stored(id, a, db))
    ensures b.instanceUID == id && b.lastSeen == 1
    ensures Reached(cfg, tick, id, CheckedIn(id, b, db))
  {
    var h := Stored(id, a, db);
    Extend(cfg, tick, id, h, Tick(1));
    var h1 := Forward(cfg, Keepalive(cfg, tick), id, h, Tick(1));
    b := CheckInOf(cfg, map[id := a], id, 1);
    assert map[id := a][id := b] == map[id := b];
    Extend(cfg, tick, id, h1, CheckIn(Hello(id), NO_META));
    assert Forward(cfg, Keepalive(cfg, tick), id, h1, CheckIn(Hello(id), NO_META)) == CheckedIn(id, b, db);
  }

  /** It has checked in once more, just after its first pass. */
  ghost function CheckedIn(id: Id, b: Agent, db: Db): History {
    History(Replica(1, map[id := b], Memory(map[id := SessionWrite(0, 1)], 1), Idle, 0, {id}, db), Some(1))
  }

  /** It checks in once more, just after, and nothing is due yet. */
  lemma SecondCheckIn(cfg: Config, tick: Time, id: Id, a: Agent, db: Db) returns (b: Agent)
    requires 1 < tick && tick + 1 < DisconnectThreshold(cfg) && 1 < KeepaliveInterval(DisconnectThreshold(cfg), tick)
    requires a.instanceUID == id && Reached(cfg, tick, id, Stored(id, a, db))
    ensures b.instanceUID == id && b.lastSeen == 1 && Reached(cfg, tick, id, Quiet(id, b, db, 2, 1))
  {
    b := ChecksInAgain(cfg, tick, id, a, db);
    ListOfOne(id, b);
    NothingDue(id, b, 1, 1, KeepaliveInterval(DisconnectThreshold(cfg), tick));
    assert AfterDue(CheckedIn(id, b, db).s.memory, {id}) == Quiet(id, b, db, 2, 1).s.memory;
    EmptyPass(cfg, tick, id, CheckedIn(id, b, db), 1, [b], Quiet(id, b, db, 2, 1));
  }

  /** A sweep evicts it before its next check-in, and the next pass forgets it. */
  lemma Evicted(cfg: Config, tick: Time, id: Id, a: Agent, db: Db, gen: nat, from: Time, at: Time)
    requires a.instanceUID == id && a.lastSeen == 1 && 0 < tick && from <= at <= from + tick
    requires 1 + EvictAfter(cfg) < at <= 1 + DisconnectThreshold(cfg) - tick
    requires Reached(cfg, tick, id, Quiet(id, a, db, gen, from))
    ensures Reached(cfg, tick, id, Gone(id, db, gen + 1, at))
  {
    var h := Quiet(id, a, db, gen, from);
    Extend(cfg, tick, id, h, Tick(at));
    var h1 := Forward(cfg, Keepalive(cfg, tick), id, h, Tick(at));
    assert ApplyOp(cfg, map[id := a], Op.Sweep(at)) == map[];
    Extend(cfg, tick, id, h1, SweepNow);
    var h2 := Forward(cfg, Keepalive(cfg, tick), id, h1, SweepNow);
    ListOfNone();
    assert AfterDue(h2.s.memory, {}) == Memory(map[], gen + 1);
    EmptyPass(cfg, tick, id, h2, at, [], Gone(id, db, gen + 1, at));
  }

  /** It checks in at the last moment allowed; a tick later the stored session is over-age. */
  lemma TooLate(cfg: Config, tick: Time, id: Id, db: Db, gen: nat)
    requires 0 < tick && 2 * tick <= DisconnectThreshold(cfg)
    requires id in db.sessions && db.sessions[id].updatedAt == 0
    requires Reached(cfg, tick, id, Gone(id, db, gen, 1 + DisconnectThreshold(cfg) - tick))
    ensures exists h :: Reached(cfg, tick, id, h) && !Young(cfg, id, h.s)
  {
    var r := 1 + DisconnectThreshold(cfg) - tick;
    var h := Gone(id, db, gen, r);
    Extend(cfg, tick, id, h, CheckIn(Hello(id), NO_META));
    var h1 := Forward(cfg, Keepalive(cfg, tick), id, h, CheckIn(Hello(id), NO_META));
    Extend(cfg, tick, id, h1, Tick(r + tick));
    assert !Young(cfg, id, Forward(cfg, Keepalive(cfg, tick), id, h1, Tick(r + tick)).s);
  }

  lemma OneHeartbeat(cfg: Config, tick: Time)
    requires tick > 0 && DisconnectThreshold(cfg) - tick > EvictAfter(cfg)
    ensures EvictAfter(cfg) == cfg.heartbeatInterval
  {
    var h, m := cfg.heartbeatInterval, cfg.staleMissedHeartbeats;
    assert h * m == h + h * (m - 1);
    assert m >= 2 ==> h * (m - 1) >= h;
  }

  lemma KeepaliveIsAHeartbeat(h: Time, tick: Time)
    requires 0 < tick < h / 2
    ensures h - 1 <= KeepaliveInterval(h + h / 2, tick) <= h
  {
  }

  lemma TightSettings(cfg: Config, tick: Time)
    requires 0 < tick < DisconnectThreshold(cfg) && DisconnectThreshold(cfg) - tick > EvictAfter(cfg)
    ensures var h, k := cfg.heartbeatInterval, KeepaliveInterval(DisconnectThreshold(cfg), tick);
            EvictAfter(cfg) == h && tick < h / 2 && h - 1 <= k <= h
  {
    OneHeartbeat(cfg, tick);
    KeepaliveIsAHeartbeat(cfg.heartbeatInterval, tick);
  }

  lemma StoredThenQuiet(cfg: Config, tick: Time, id: Id, k: Time) returns (b: Agent, db: Db)
    requires k == KeepaliveInterval(DisconnectThreshold(cfg), tick) && 1 < tick < k && tick + k <= DisconnectThreshold(cfg)
    ensures id in db.sessions && db.sessions[id].updatedAt == 0 && b.instanceUID == id && b.lastSeen == 1
    ensures Reached(cfg, tick, id, Quiet(id, b, db, k, k - 1))
  {
    var a;
    a, db := Opening(cfg, tick, id);
    b := SecondCheckIn(cfg, tick, id, a, db);
    StaysQuiet(cfg, tick, id, b, db, 2, 1, k - 1);
  }

  /** The whole course, up to the last moment at which the evicted agent may check in. */
  lemma StoredThenEvicted(cfg: Config, tick: Time, id: Id, k: Time) returns (db: Db, gen: nat)
    requires k == KeepaliveInterval(DisconnectThreshold(cfg), tick)
    requires cfg.heartbeatInterval - 1 <= k <= cfg.heartbeatInterval == EvictAfter(cfg)
    requires tick < cfg.heartbeatInterval / 2 && tick + k >= cfg.heartbeatInterval + 3
    ensures id in db.sessions && db.sessions[id].updatedAt == 0
    ensures Reached(cfg, tick, id, Gone(id, db, gen, 1 + DisconnectThreshold(cfg) - tick))
  {
    var evictAt, r := cfg.heartbeatInterval + 2, 1 + DisconnectThreshold(cfg) - tick;
    var b;
    b, db := StoredThenQuiet(cfg, tick, id, k);
    Evicted(cfg, tick, id, b, db, k, k - 1, evictAt);
    StaysGone(cfg, tick, id, db, k + 1, evictAt, r);
    gen := k + 1 + (r - evictAt);
  }

  lemma StaleWhenEvictedBetweenCheckIns(cfg: Config, tick: Time)
    requires 0 < tick < DisconnectThreshold(cfg) && !LeavesRoom(cfg, tick)
    ensures !AlwaysFresh(cfg, tick)
  {
    var id := "agent";
    TightSettings(cfg, tick);
    var db, gen := StoredThenEvicted(cfg, tick, id, KeepaliveInterval(DisconnectThreshold(cfg), tick));
    TooLate(cfg, tick, id, db, gen);
    var h :| Reached(cfg, tick, id, h) && !Young(cfg, id, h.s);
    var hs: seq<History>, acts: seq<Action> :| IsPunctual(cfg, tick, id, hs, acts) && hs[|acts|] == h;
  }

  /** For every tick under the threshold, stored sessions stay fresh in every punctual run exactly when the
      settings leave room: the longest allowed check-in gap does not exceed the eviction age, or the tick
      and the keepalive together do not exceed a heartbeat by more than two nanoseconds. */
  lemma FreshnessExactly(cfg: Config, tick: Time)
    requires 0 < tick < DisconnectThreshold(cfg)
    ensures AlwaysFresh(cfg, tick) <==> LeavesRoom(cfg, tick)
  {
    if LeavesRoom(cfg, tick) {
      FreshWithRoom(cfg, tick);
    } else {
      StaleWhenEvictedBetweenCheckIns(cfg, tick);
    }
  }
}
