/** The read path: a replica's own agents merged with what the store holds for
    the rest, with stale connections corrected. */
module ReadPath {
  import opened Fleet
  import opened Store
  import opened StoreRuns

  /** A stored connection no replica has confirmed within the threshold. A row
      without a session time counts as arbitrarily old. */
  predicate StaleConnected(a: Agent, now: Time, disconnectAfter: Time) {
    a.connected && (a.sessionUpdatedAt.None? || now - a.sessionUpdatedAt.value > disconnectAfter)
  }

  function Corrected(a: Agent, now: Time, disconnectAfter: Time): Agent {
    if StaleConnected(a, now, disconnectAfter) then a.(connected := false) else a
  }

  /** The stored agents a merge adds to the local ones, in store order. */
  function Remote(local: set<Id>, stored: seq<Agent>, now: Time, disconnectAfter: Time): seq<Agent> {
    if stored == [] then []
    else
      var rest, a := Remote(local, stored[..|stored| - 1], now, disconnectAfter), stored[|stored| - 1];
      if a.instanceUID in local || a.evictedAt.Some? then rest else rest + [Corrected(a, now, disconnectAfter)]
  }

  method MergeAgents(local: seq<Agent>, stored: seq<Agent>, now: Time, disconnectAfter: Time) returns (merged: seq<Agent>)
    ensures merged == local + Remote(Uids(local), stored, now, disconnectAfter)
  {
    merged := local;
    var seen: set<Id> := {};
    for i := 0 to |local|
      invariant seen == Uids(local[..i])
    {
      seen := seen + {local[i].instanceUID};
      assert local[..i + 1][..i] == local[..i];
    }
    assert local[..|local|] == local;
    for i := 0 to |stored|
      invariant merged == local + Remote(seen, stored[..i], now, disconnectAfter)
    {
      assert stored[..i + 1][..i] == stored[..i];
      var a := stored[i];
      if a.instanceUID in seen || a.evictedAt.Some? { continue; }
      if StaleConnected(a, now, disconnectAfter) {
        a := a.(connected := false);
      }
      merged := merged + [a];
    }
    assert stored[..|stored|] == stored;
  }

  /** Every stored agent that scans, read back. */
  ghost function Stored(db: Db): map<Id, Agent> {
    map id | id in db.agents && ScanAgent(db, id).Ok? :: ScanAgent(db, id).value
  }

  datatype Detail = Found(agent: Agent) | NotFound | LookupFailed | BadRequest

  /** The single-agent endpoint: the registry first, then the store if there is one. */
  function GetAgent(local: map<Id, Agent>, store: Option<Db>, lookupFails: bool, id: Id, now: Time, disconnectAfter: Time): Detail {
    if id == "" then BadRequest
    else if id in local then Found(local[id])
    else if store.None? then NotFound
    else if lookupFails then LookupFailed
    else if id !in store.value.agents then NotFound
    else
      match ScanAgent(store.value, id)
      case Err => LookupFailed
      case Ok(a) => if a.evictedAt.Some? then NotFound else Found(Corrected(a, now, disconnectAfter))
  }

  // ----- the list and the detail view agree -----

  predicate Offers(a: Agent, id: Id) {
    a.instanceUID == id && a.evictedAt.None?
  }

  lemma {:induction false} RemoteHas(local: set<Id>, stored: seq<Agent>, now: Time, t: Time, id: Id)
    ensures id in Uids(Remote(local, stored, now, t))
            <==> id !in local && exists i :: 0 <= i < |stored| && Offers(stored[i], id)
  {
    if stored != [] {
      var n := |stored| - 1;
      var rest := Remote(local, stored[..n], now, t);
      RemoteHas(local, stored[..n], now, t, id);
      assert (rest + [Corrected(stored[n], now, t)])[..|rest|] == rest;
      if i :| 0 <= i < |stored| && Offers(stored[i], id) {
        assert i < n ==> Offers(stored[..n][i], id);
      }
    }
  }

  lemma {:induction false} RemoteFrom(local: set<Id>, stored: seq<Agent>, now: Time, t: Time, k: nat) returns (j: nat)
    requires k < |Remote(local, stored, now, t)|
    ensures j < |stored| && Remote(local, stored, now, t)[k] == Corrected(stored[j], now, t)
    ensures stored[j].instanceUID !in local
  {
    var n := |stored| - 1;
    if k < |Remote(local, stored[..n], now, t)| {
      j := RemoteFrom(local, stored[..n], now, t, k);
    } else {
      j := n;
    }
  }

  lemma {:induction false} RemoteDistinct(local: set<Id>, stored: seq<Agent>, now: Time, t: Time)
    requires DistinctUids(stored)
    ensures DistinctUids(Remote(local, stored, now, t))
    ensures Uids(Remote(local, stored, now, t)) <= Uids(stored) - local
  {
    if stored != [] {
      var n := |stored| - 1;
      var rest, a := Remote(local, stored[..n], now, t), stored[n];
      RemoteDistinct(local, stored[..n], now, t);
      assert (rest + [Corrected(a, now, t)])[..|rest|] == rest;
      UidsHave(stored[..n], a.instanceUID);
      forall i | 0 <= i < |rest| ensures rest[i].instanceUID != a.instanceUID {
        UidsHave(rest, rest[i].instanceUID);
      }
    }
  }

  lemma {:induction false} UidsConcat(a: seq<Agent>, b: seq<Agent>)
    ensures Uids(a + b) == Uids(a) + Uids(b)
  {
    if b == [] {
      assert a + b == a;
    } else {
      UidsConcat(a, b[..|b| - 1]);
      assert (a + b)[..|a + b| - 1] == a + b[..|b| - 1];
    }
  }

  /** The merged list, of any listing of the registry and any listing of the store. */
  ghost predicate IsMerged(merged: seq<Agent>, local: map<Id, Agent>, db: Db, now: Time, t: Time) {
    exists mine, stored ::
      && Lists(mine, local) && Lists(stored, Stored(db))
      && merged == mine + Remote(Uids(mine), stored, now, t)
  }

  lemma MergedDistinct(mine: seq<Agent>, stored: seq<Agent>, now: Time, t: Time)
    requires DistinctUids(mine) && DistinctUids(stored)
    ensures DistinctUids(mine + Remote(Uids(mine), stored, now, t))
  {
    var theirs := Remote(Uids(mine), stored, now, t);
    RemoteDistinct(Uids(mine), stored, now, t);
    var merged := mine + theirs;
    forall i, j | 0 <= i < j < |merged| ensures merged[i].instanceUID != merged[j].instanceUID {
      if i < |mine| <= j {
        UidsHave(mine, mine[i].instanceUID);
        UidsHave(theirs, theirs[j - |mine|].instanceUID);
      }
    }
  }

  /** An id is listed exactly when it is local or has a stored row that is not soft-deleted. */
  lemma MergedIds(mine: seq<Agent>, stored: seq<Agent>, local: map<Id, Agent>, db: Db, now: Time, t: Time, id: Id)
    requires SessionsFollow(db) && Lists(mine, local) && Lists(stored, Stored(db))
    ensures id in Uids(mine + Remote(Uids(mine), stored, now, t))
            <==> id in local || (id in db.agents && db.agents[id].evictedAt.None?)
  {
    UidsConcat(mine, Remote(Uids(mine), stored, now, t));
    RemoteHas(Uids(mine), stored, now, t, id);
    UidsHave(stored, id);
    if i :| 0 <= i < |stored| && stored[i].instanceUID == id {
      assert stored[i] == Stored(db)[id];
    }
  }

  /** Each listed agent is the local one or the corrected stored one. */
  lemma MergedEntry(mine: seq<Agent>, stored: seq<Agent>, local: map<Id, Agent>, theirs: map<Id, Agent>, now: Time, t: Time, k: nat)
    requires Lists(mine, local) && Lists(stored, theirs)
    requires k < |mine + Remote(Uids(mine), stored, now, t)|
    ensures var a := (mine + Remote(Uids(mine), stored, now, t))[k];
            if a.instanceUID in local then a == local[a.instanceUID]
            else a.instanceUID in theirs && a == Corrected(theirs[a.instanceUID], now, t)
  {
    if k >= |mine| {
      var j := RemoteFrom(Uids(mine), stored, now, t, k - |mine|);
    }
  }

  /** The detail view finds exactly the ids that are local or have a live stored row. */
  lemma FoundExactly(local: map<Id, Agent>, db: Db, now: Time, t: Time, id: Id)
    requires SessionsFollow(db) && id != ""
    ensures GetAgent(local, Some(db), false, id, now, t).Found?
       <==> id in local || (id in db.agents && db.agents[id].evictedAt.None?)
  {
  }

  /** What the detail view shows of an agent that is local, or stored and live. */
  lemma DetailShows(local: map<Id, Agent>, db: Db, now: Time, t: Time, id: Id)
    requires SessionsFollow(db) && id != "" && (id in local || (id in Stored(db) && Stored(db)[id].evictedAt.None?))
    ensures GetAgent(local, Some(db), false, id, now, t)
         == Found(if id in local then local[id] else Corrected(Stored(db)[id], now, t))
  {
  }

  lemma ListedAsDetailed(mine: seq<Agent>, stored: seq<Agent>, local: map<Id, Agent>, db: Db, now: Time, t: Time, k: nat)
    requires SessionsFollow(db) && Lists(mine, local) && Lists(stored, Stored(db))
    requires k < |mine + Remote(Uids(mine), stored, now, t)|
    ensures var a := (mine + Remote(Uids(mine), stored, now, t))[k];
            a.instanceUID != "" ==> GetAgent(local, Some(db), false, a.instanceUID, now, t) == Found(a)
  {
    var merged := mine + Remote(Uids(mine), stored, now, t);
    var id := merged[k].instanceUID;
    MergedEntry(mine, stored, local, Stored(db), now, t, k);
    UidsHave(merged, id);
    MergedIds(mine, stored, local, db, now, t, id);
    if id != "" {
      DetailShows(local, db, now, t, id);
    }
  }

  /** For the same registry, store and instant: an id is on the merged list exactly when
      its detail view is found, every listed agent is what the detail view shows, and no
      id is listed twice. */
  lemma ListAndDetailAgree(merged: seq<Agent>, local: map<Id, Agent>, db: Db, now: Time, t: Time, id: Id)
    requires SessionsFollow(db) && IsMerged(merged, local, db, now, t) && id != ""
    ensures DistinctUids(merged)
    ensures id in Uids(merged) <==> GetAgent(local, Some(db), false, id, now, t).Found?
    ensures id in Uids(merged) <==> id in local || (id in db.agents && db.agents[id].evictedAt.None?)
    ensures forall k :: 0 <= k < |merged| && merged[k].instanceUID == id
                        ==> GetAgent(local, Some(db), false, id, now, t) == Found(merged[k])
  {
    var mine, stored :|
      && Lists(mine, local) && Lists(stored, Stored(db))
      && merged == mine + Remote(Uids(mine), stored, now, t);
    MergedDistinct(mine, stored, now, t);
    MergedIds(mine, stored, local, db, now, t, id);
    FoundExactly(local, db, now, t, id);
    forall k | 0 <= k < |merged| && merged[k].instanceUID == id
      ensures GetAgent(local, Some(db), false, id, now, t) == Found(merged[k])
    {
      ListedAsDetailed(mine, stored, local, db, now, t, k);
    }
  }
}
