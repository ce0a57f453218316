/** Soft deletion, retention and purge over whole runs; and which session write wins. */
module Retention {
  import opened Fleet
  import opened Store
  import opened StoreRuns

  // ----- soft deletion is final for the life of a row -----

  /** id has a row, soft-deleted at time e. */
  ghost predicate Evicted(db: Db, id: Id, e: Time) {
    id in db.agents && db.agents[id].evictedAt == Some(e)
  }

  lemma EvictedAtStays(db: Db, op: StoreOp, id: Id, e: Time)
    requires Evicted(db, id, e) && id in Apply(db, op).agents
    ensures Evicted(Apply(db, op), id, e)
  {
  }

  /** Once set, evicted_at never moves while the row lives: not by saving the agent
      again, not by another soft delete, not by a purge that spares the row. */
  lemma {:induction false} EvictedAtSticks(ops: seq<StoreOp>, i: nat, id: Id, e: Time)
    requires i <= |ops| && LivesSince(ops, i, id) && Evicted(Run(ops[..i]), id, e)
    ensures Evicted(Run(ops), id, e)
  {
    if i == |ops| {
      assert ops[..i] == ops;
    } else {
      var n := |ops| - 1;
      assert ops[..n][..i] == ops[..i];
      EvictedAtSticks(ops[..n], i, id, e);
      EvictedAtStays(Run(ops[..n]), ops[n], id, e);
    }
  }

  /** Operation i soft-deleted id at time e, and the row has lived since. */
  ghost predicate EvictedBy(ops: seq<StoreOp>, i: nat, id: Id, e: Time) {
    i < |ops| && ops[i] == SoftDelete(id, e) && LivesSince(ops, i, id)
  }

  /** A soft-deleted row was soft-deleted by some operation of the run, at that very time. */
  lemma {:induction false} EvictionHasACause(ops: seq<StoreOp>, id: Id)
    requires id in Run(ops).agents && Run(ops).agents[id].evictedAt.Some?
    ensures exists i :: EvictedBy(ops, i, id, Run(ops).agents[id].evictedAt.value)
  {
    var n := |ops| - 1;
    var before, op := Run(ops[..n]), ops[n];
    var e := Run(ops).agents[id].evictedAt.value;
    if id !in before.agents {
      StepCreates(before, op, id);
    } else {
      StepRow(before, op, id);
      if before.agents[id].evictedAt.Some? {
        EvictionHasACause(ops[..n], id);
        var i :| EvictedBy(ops[..n], i, id, e);
        assert EvictedBy(ops, i, id, e);
      } else {
        assert LivesSince(ops[..n], n, id);
        assert EvictedBy(ops, n, id, e);
      }
    }
  }

  /** The cutoff a purge job carries is fixed when it is scheduled. */
  function PurgeJob(scheduledAt: Time, softDeleteDuration: Time): StoreOp {
    Purge(scheduledAt - softDeleteDuration)
  }

  /** A purge removes a row exactly when it was soft-deleted more than the retention
      period before the job was scheduled, and then some operation did soft-delete it. */
  lemma PurgeRespectsRetention(ops: seq<StoreOp>, id: Id, scheduledAt: Time, softDeleteDuration: Time)
    requires id in Run(ops).agents
    ensures var removed := id !in Apply(Run(ops), PurgeJob(scheduledAt, softDeleteDuration)).agents;
            && (removed <==> Run(ops).agents[id].evictedAt.Some?
                             && scheduledAt > Run(ops).agents[id].evictedAt.value + softDeleteDuration)
            && (removed ==> exists i, e :: EvictedBy(ops, i, id, e) && scheduledAt > e + softDeleteDuration)
  {
    if id !in Apply(Run(ops), PurgeJob(scheduledAt, softDeleteDuration)).agents {
      EvictionHasACause(ops, id);
      var e := Run(ops).agents[id].evictedAt.value;
      var i :| EvictedBy(ops, i, id, e);
      assert EvictedBy(ops, i, id, e) && scheduledAt > e + softDeleteDuration;
    }
  }

  /** A row no operation soft-deletes is never purged, whatever the cutoffs. */
  lemma LiveRowsAreNeverPurged(ops: seq<StoreOp>, id: Id, before: Time)
    requires id in Run(ops).agents
    requires forall i, e :: 0 <= i < |ops| ==> ops[i] != SoftDelete(id, e)
    ensures id in Apply(Run(ops), Purge(before)).agents
  {
    if Run(ops).agents[id].evictedAt.Some? {
      EvictionHasACause(ops, id);
    }
  }

  // ----- which session write wins -----

  predicate WritesSession(db: Db, op: StoreOp, id: Id) {
    (op.SaveAgent? || (op.SaveSession? && id in db.agents)) && op.agent.instanceUID == id
  }

  /** The writes of id's session that the foreign key lets through, in order of arrival. */
  function SessionWrites(ops: seq<StoreOp>, id: Id): seq<Agent> {
    if ops == [] then []
    else
      var init, op := ops[..|ops| - 1], ops[|ops| - 1];
      if WritesSession(Run(init), op, id) then SessionWrites(init, id) + [op.agent] else SessionWrites(init, id)
  }

  /** The last to arrive of those with the newest event time. */
  function LastNewest(snaps: seq<Agent>): Agent
    requires snaps != []
  {
    var last := snaps[|snaps| - 1];
    if |snaps| == 1 then last
    else
      var best := LastNewest(snaps[..|snaps| - 1]);
      if best.lastSeen <= last.lastSeen then last else best
  }

  ghost predicate HoldsLastNewest(db: Db, id: Id, writes: seq<Agent>) {
    && (id in db.sessions <==> writes != [])
    && (writes != [] ==> db.sessions[id] == SessionOf(LastNewest(writes)))
  }

  lemma LastNewestStep(db: Db, op: StoreOp, id: Id, writes: seq<Agent>)
    requires SessionsFollow(db) && HoldsLastNewest(db, id, writes)
    requires id in db.agents ==> id in Apply(db, op).agents
    ensures HoldsLastNewest(Apply(db, op), id, if WritesSession(db, op, id) then writes + [op.agent] else writes)
  {
  }

  /** Ties are accepted, so the session row is the last write at the newest event time:
      a disconnect at an unmoved check-in time lands, and a keepalive still in flight
      that carries the same time and arrives later replaces it. */
  lemma {:induction false} SessionHoldsLastNewest(ops: seq<StoreOp>, id: Id)
    requires Stays(ops, id)
    ensures HoldsLastNewest(Run(ops), id, SessionWrites(ops, id))
  {
    if ops != [] {
      var n := |ops| - 1;
      SessionHoldsLastNewest(ops[..n], id);
      RunSessionsFollow(ops[..n]);
      LastNewestStep(Run(ops[..n]), ops[n], id, SessionWrites(ops[..n], id));
    }
  }

  /** So a keepalive still in flight can undo a disconnect: one written at an unmoved check-in time shows,
      until the older write that carries the same time arrives after it. */
  lemma LateKeepaliveUndoesDisconnect(up: Agent, down: Agent)
    requires up.instanceUID == down.instanceUID && up.lastSeen == down.lastSeen && up.connected && !down.connected
    ensures var ops, id := [SaveAgent(up), SaveAgent(down), SaveSession(up)], up.instanceUID;
            && id in Run(ops[..2]).sessions && !Run(ops[..2]).sessions[id].connected
            && id in Run(ops).sessions && Run(ops).sessions[id].connected
  {
    var one, two := [SaveAgent(up)], [SaveAgent(up), SaveAgent(down)];
    var ops := [SaveAgent(up), SaveAgent(down), SaveSession(up)];
    assert one[..0] == [] && two[..1] == one && ops[..2] == two;
    assert Run([]) == EMPTY_DB;
    assert Run(one) == SaveAgentTx(EMPTY_DB, up);
    assert Run(two) == SaveAgentTx(Run(one), down);
    assert Run(ops) == SaveSessionTx(Run(two), up);
  }

  /** A stored session shows connected exactly when the last of its newest writes did. */
  lemma ShowsLastNewest(ops: seq<StoreOp>, id: Id)
    requires Stays(ops, id) && id in Run(ops).sessions
    ensures SessionWrites(ops, id) != [] && (Run(ops).sessions[id].connected <==> LastNewest(SessionWrites(ops, id)).connected)
  {
    SessionHoldsLastNewest(ops, id);
  }
}
