# A verified model of grex's fleet state

grex is an OpAMP server that tracks a fleet of agents. It keeps fleet state in
three places that must agree: a sharded in-memory registry on each replica, a
Postgres store written behind the registry by two independent writers, and a read
path that merges a replica's own agents with what the store holds for the rest.
This project models that distributed cache, and the self-contained algorithms
around it, in Dafny 4.11, and proves what they keep.

`dafny verify dfyconfig.toml` checks every file.

## How the model is laid out

| file | models |
|---|---|
| `Fleet.dfy` | the data model, and what one registry operation means on one flat map |
| `Registry.dfy` | the sharded registry as an object, proved to implement the flat map |
| `FleetRuns.dfy`, `Compression.dfy` | event conservation and status compression over every run |
| `Store.dfy`, `StoreRuns.dfy`, `Retention.dfy` | the three tables with their guards, and what every run of writes keeps |
| `Flush.dfy`, `LostRow.dfy`, `Flusher.dfy` | the dirty set and the flusher: every interleaving, how a row can still be lost, and one pass exactly |
| `Snapshotter.dfy`, `Freshness.dfy`, `FreshnessLimit.dfy` | session keepalive, and exactly when stored sessions stay fresh |
| `ReadPath.dfy`, `Cluster.dfy` | the merge with staleness correction, and many replicas over one store |
| `RunConcurrent.dfy` | the semaphore scheduler as a state machine; batching |
| `Paging.dfy` | heap paging against full sort |
| `Matcher.dfy` | the matcher parser and printer |
| `Handler.dfy` | the OpAMP connection callbacks, and runs of them |
| `YamlDisplay.dfy` | the re-indenter and its greatest common divisor |

Time is a mathematical integer in nanoseconds on one clock shared by all replicas.
A report's clock reading, the outcome of each database statement, the order of map
iteration, the hash, the regular-expression compiler and the peer's address are
parameters or left open. Each SQL statement is one step on a map; a transaction
installs its result only when it commits.

## What turned out to depend on the settings

- Connect and disconnect events balance in every run exactly when
  `stale_missed_heartbeats` is at least 2 or the heartbeat interval is a single
  nanosecond (`FleetRuns.ConservationExactly`). Otherwise a sweep can evict an agent
  that is still connected, and no disconnect fires.
- Stored sessions of agents that keep checking in stay under the disconnect
  threshold, for every tick under it, exactly when the longest allowed check-in gap
  does not exceed the eviction age, or tick and keepalive together do not exceed a
  heartbeat by more than two nanoseconds (`FreshnessLimit.FreshnessExactly`). Two
  missed heartbeats before eviction are always enough. With one, an agent can be
  evicted between two punctual check-ins; the snapshotter forgets it, and its next
  write comes too late.
- Every order and repetition of saves ends in the same row exactly when all
  snapshots at the newest event time agree (`StoreRuns.ConvergenceExactly`).
- A printed matcher parses back exactly under a condition a caller can check
  (`Matcher.RoundTripExactly`). Being the result of a parse is not enough: `a! = v`
  parses to the key `a!`, which prints as `a!=v`.

## Where the code falls short, and exactly when

- With nothing marked and no flusher pass running, the latest attempt to save a
  registered agent carried what the registry shows, whatever writes fail
  (`Flush.LatestAttemptIsCurrent`). The stored report is the registry's exactly when
  that attempt succeeded and no purge or delete has removed the row since, or it failed
  but carried what the row already held (`Flush.NoLostUpdate`). A failed save is not
  tried again (`LostRow.FailedSaveIsNotTriedAgain`), and a purge removes the row of an
  agent that was soft-deleted and came back, since saving it again does not clear
  `evicted_at` (`LostRow.PurgedWhileRegistered`).
- For the same reason an agent that comes back is registered and saved on one replica
  and not found on another (`Cluster.ComesBackHidden`), for as long as its row lives
  (`Cluster.HiddenOnceSoftDeleted`).
- A keepalive still in flight can undo a disconnect that carries the same check-in
  time (`Retention.LateKeepaliveUndoesDisconnect`); a stored session shows what the
  last of its newest writes said (`Retention.ShowsLastNewest`).
- A first WebSocket that closes late disconnects an agent that has moved to a second
  (`Handler.LateCloseDisconnects`); a close disconnects exactly the agents that
  reported over it (`Handler.CloseDisconnectsItsReporters`).
- Rescaling can show a deeper comment level with the line above it
  (`YamlDisplay.CommentsMayCollapse`); of any two lines one is shown strictly deeper
  exactly when its indent, cut down to a multiple of the scale, still is
  (`YamlDisplay.DisplayKeepsOrderExactly`).

## Where the code and its documentation differ

The model follows the code.

- `docs/developer/persistence.md:179` says a rejected agents write abandons the whole
  transaction; `internal/persistence/postgres.go:162-212` still attempts the session
  row, and only the config files are gated.
- `internal/fleet/registry.go:600` speaks of one missed heartbeat interval; the sweep
  uses the disconnect threshold of one and a half.
- `internal/ui/ui.go:703` says the unit is taken over non-empty lines; comment lines
  are left out of it, though they are rescaled.
- Saving a session without an agents row is refused by the foreign key of
  `internal/persistence/migrations/000002_agent_state.up.sql`; a stored agent without
  a session row would not scan.

## Model

| member | source | states |
|---|---|---|
| `Registry.ShardsPartition` | internal/fleet/registry.go:296-304 | for any slot function, each id lives only in its own shard and shards never overlap |
| `Registry.FlatLookup` | internal/fleet/registry.go:300-304 | looking an id up in its own shard is looking it up in the one flat map |
| `Registry.FlatUpdate` | internal/fleet/registry.go:318-336 | replacing an entry in its shard replaces exactly that entry of the flat map |
| `Registry.FlatSweep` | internal/fleet/registry.go:609-643 | sweeping the shards one by one is sweeping the flat map |
| `Registry.Registry.constructor` | internal/fleet/registry.go:275-294 | a new registry is the empty fleet, with the default shard count when none is given |
| `Registry.Registry.Report` | internal/fleet/registry.go:318-390 | one report is one step of the flat map, absent fields kept, with exactly its events in order; an invalid uid changes nothing |
| `Registry.Registry.CheckRequiredAttributes` | internal/fleet/registry.go:392-414 | stores the required keys found in neither attribute map, in order, and fires events only when a non-empty list changed |
| `Registry.Registry.CheckReservedAttributeConflicts` | internal/fleet/registry.go:419-439 | stores the reserved keys the agent's attributes collide with, and fires events only when a non-empty list changed |
| `Registry.Registry.SetConnected` | internal/fleet/registry.go:449-463 | liveness of a known id changes, nothing else does, and an event fires only on a change |
| `Registry.Registry.Sweep` | internal/fleet/registry.go:609-643 | one sweep is one step of the flat map; the ids returned are exactly the over-age ones, once each |
| `Registry.Registry.Get` | internal/fleet/registry.go:478-487 | returns the agent of the flat map, or none |
| `Registry.Registry.List` | internal/fleet/registry.go:496-506 | lists every agent exactly once |
| `Registry.Registry.Aggregate` | internal/fleet/registry.go:532-563 | the counts are the cardinalities of the sets of agents they name, with no zero route |
| `Registry.StatsAreTheFoldOverList` | internal/fleet/registry.go:496-563 | the in-place counts equal the fold over any listing |
| `Registry.SizeIsDisconnectedPlusRoutes` | internal/fleet/registry.go:508-563 | size is disconnected plus the sum over all routes |
| `Registry.FlatKeyed` | internal/fleet/registry.go:300-336 | a valid registry files every agent under its own uid |
| `Fleet.FoldChecksIn` | internal/fleet/registry.go:342-348 | a report sets the check-in fields and never renames an agent or moves its first-seen time |
| `Fleet.KeysExactly` | internal/fleet/registry.go:392-430 | the missing keys are the required ones described in neither attribute map, the conflicting ones the reserved keys described in one |
| `Fleet.KeysInOrder` | internal/fleet/registry.go:392-430 | both lists keep the order of the keys they are drawn from |
| `FleetRuns.SweepLeaves` | internal/fleet/registry.go:609-643 | a sweep keeps exactly the agents not over-age, leaves none connected past the threshold, and changes nothing but liveness |
| `FleetRuns.RunConserves` | internal/fleet/registry.go:318-463 | in every run connects minus disconnects of an id is 1 when it is registered and connected, else 0, provided eviction does not come first |
| `FleetRuns.EvictedWhileConnected` | internal/fleet/registry.go:609-643 | otherwise one report and one sweep break the balance |
| `FleetRuns.ConservationExactly` | internal/fleet/registry.go:609-643 | the balance holds in every run exactly for the settings named |
| `Compression.FoldCompresses` | internal/fleet/registry.go:318-390 | folding a message without the fields equal to the last reported ones gives the same agent |
| `Compression.CompressionIsTransparent` | internal/fleet/registry.go:318-439 | over every run and every choice of omitted unchanged fields, the final fleet is the same |
| `Store.PostgresStore.SaveAgent` | internal/persistence/postgres.go:135-218 | commits the three guarded writes together or changes nothing, and succeeds exactly when no statement it reaches fails |
| `Store.PostgresStore.InsertFiles` | internal/persistence/postgres.go:199-212 | inserts exactly the agent's files, in any order, and succeeds exactly when no insert fails |
| `Store.PostgresStore.SaveSession` | internal/persistence/postgres.go:223-225 | upserts the session unless it is older; without an agents row it fails |
| `Store.PostgresStore.SoftDeleteAgent` | internal/persistence/postgres.go:405-417 | sets evicted_at only where it is not set, or fails and changes nothing |
| `Store.PostgresStore.DeleteAgent` | internal/persistence/postgres.go:395-400 | leaves neither row, session nor file of the agent, and every other agent's row, session and files as they were |
| `Store.PostgresStore.Purge` | internal/persistence/purge.go:48-58 | removes exactly the rows soft-deleted before the cutoff, and counts them |
| `StoreRuns.TableCoupling` | internal/persistence/postgres.go:135-218 | in every reachable store each agents row and its config rows come from one and the same saved snapshot, and each has a session row at least as new |
| `StoreRuns.ReadsBackOneSnapshot` | internal/persistence/postgres.go:247-356 | every stored agent scans, and shows the durable fields and files of one saved snapshot |
| `StoreRuns.TimestampsAdvance` | internal/persistence/postgres.go:41-75 | while a row lives neither timestamp decreases and first_seen never moves |
| `StoreRuns.StoreHoldsFirstNewest` | internal/persistence/postgres.go:162-212 | in any interleaving the row and files are those of the first to arrive at the newest event time |
| `StoreRuns.ConvergenceExactly` | internal/persistence/postgres.go:162-212 | any order and duplication of the same snapshots ends in the same row and files, exactly when the newest ones agree |
| `Retention.EvictedAtSticks` | internal/persistence/postgres.go:402-417 | evicted_at never moves while the row lives, under any later operation |
| `Retention.EvictionHasACause` | internal/persistence/postgres.go:405-417 | a soft-deleted row carries the time of a soft delete of the run |
| `Retention.PurgeRespectsRetention` | internal/persistence/purge.go:48-79 | a purge removes a row exactly when it was scheduled later than evicted_at plus the retention period |
| `Retention.LiveRowsAreNeverPurged` | internal/persistence/purge.go:48-51 | rows never soft-deleted are never purged |
| `Retention.SessionHoldsLastNewest` | internal/persistence/postgres.go:54-75 | the session row is the last write to arrive at the newest event time |
| `Retention.ShowsLastNewest` | internal/persistence/postgres.go:54-75 | a stored session shows connected exactly when the last of its newest writes did |
| `Retention.LateKeepaliveUndoesDisconnect` | internal/persistence/postgres.go:69 | a keepalive that arrives after a disconnect at the same check-in time replaces it |
| `Flush.StepsAddUpToReport` | internal/fleet/registry.go:318-390 | the single steps taken under a shard lock add up to the atomic report |
| `Flush.StepsAddUpToSetConnected` | internal/fleet/registry.go:449-463 | so do those of a connect or disconnect |
| `Flush.StepsAddUpToSweep` | internal/fleet/registry.go:609-643 | and those of a sweep, whatever order it takes the agents of a shard in |
| `Flush.RunKeepsInv` | internal/persistence/flush.go:30-71 | after every step of every interleaving, failed writes and purges included, an agent whose report was not the last one tried is marked, waiting to be read, in flight, or still under its lock |
| `Flush.LatestAttemptIsCurrent` | internal/persistence/flush.go:154-187 | with nothing marked and no pass running, the latest attempt to save a registered agent carried the registry's attributes, health, packages and config, whatever failed |
| `Flush.NoLostUpdate` | internal/persistence/flush.go:154-187 | the stored report is then the registry's exactly when that attempt succeeded and the row was not removed since, or it failed carrying what the row held |
| `Flush.NothingFailsNothingLost` | internal/persistence/flush.go:154-187 | in particular where no save of the agent fails and its row is not removed |
| `LostRow.PurgedWhileRegistered` | internal/persistence/purge.go:48-58 | in every configuration some run ends with the agent registered, nothing marked and its row gone, by a purge of the row that held its report |
| `LostRow.FailedSaveIsNotTriedAgain` | internal/persistence/flush.go:141-187 | and some run does by one failed save |
| `Flusher.ChangesAreAnnounced` | internal/fleet/registry.go:318-463 | every registry operation that changes whether an agent is registered, connected, or what it reports adds to its events |
| `Flusher.DirtyTracker.Notify` | internal/persistence/flush.go:30-55 | told a stretch of the registry's log, the tracker marks exactly the agents it has events of |
| `Flusher.DirtyTracker.Drain` | internal/persistence/flush.go:59-71 | returns each marked id once and clears the set |
| `Flusher.Flusher.Collect` | internal/persistence/flush.go:154-187 | splits drained ids into the registered agents, as they are now, and the evicted ids |
| `Flusher.Flusher.FlushOnce` | internal/persistence/flush.go:154-227 | a pass saves the marked registered agents whose write does not fail, soft-deletes the marked evicted ones likewise, and leaves every other agent's rows alone |
| `Flusher.SavesOfOwn` | internal/persistence/flush.go:154-187 | among distinct agents, each save has the effect it would have alone |
| `Flusher.SoftDeletesOne` | internal/persistence/flush.go:208-227 | soft deletes of a pass act on their own ids only, once |
| `Snapshotter.KeepaliveFits` | internal/persistence/session_snapshot.go:91-100 | the interval is the longest that is at most two thirds of the threshold and leaves room for a tick, never more than a heartbeat, and 0 when nothing fits |
| `Snapshotter.SessionSnapshotter.Due` | internal/persistence/session_snapshot.go:195-220 | selects the agents untracked or past the keepalive, and forgets those no longer listed |
| `Snapshotter.SessionSnapshotter.RecordWritten` | internal/persistence/session_snapshot.go:226-230 | tracks the written check-in time under the current pass |
| `Snapshotter.SessionSnapshotter.SnapshotOnce` | internal/persistence/session_snapshot.go:132-156 | a pass writes exactly the due agents and tracks exactly the writes that succeeded |
| `Snapshotter.BookkeepingHolds` | internal/persistence/session_snapshot.go:195-230 | over every sequence of passes, tracked ids were in the last listing and no tracked time is ahead of the stored one |
| `Snapshotter.DueExactly` | internal/persistence/session_snapshot.go:195-220 | an agent is written exactly when it is listed and due |
| `Snapshotter.FailedWriteIsRetried` | internal/persistence/session_snapshot.go:132-156 | an agent whose write failed is due at the next pass that lists it |
| `Freshness.StoredSessionsStayFresh` | internal/persistence/session_snapshot.go:91-230 | with reports, sweeps and other writes going on and writes of other agents failing, a covered agent's stored session is never older than the threshold and never taken for stale |
| `Freshness.DerivedKeepaliveStaysFresh` | internal/persistence/session_snapshot.go:91-100 | the derived keepalive achieves this for every tick under the threshold when eviction takes two or more missed heartbeats |
| `Freshness.ShownConnectedExactly` | internal/api/handler.go:149-175 | another replica shows such an agent connected exactly when its row is not soft-deleted and its stored session says connected |
| `FreshnessLimit.StaleWhenEvictedBetweenCheckIns` | internal/fleet/registry.go:609-643 | for every setting outside the condition there is a punctual run in which the stored session goes over-age |
| `FreshnessLimit.FreshnessExactly` | internal/api/filter.go:258-260 | for every tick under the threshold, stored sessions stay fresh in every punctual run exactly under the stated condition on the settings |
| `ReadPath.MergeAgents` | internal/api/filter.go:223-240 | local agents first, then every stored one that is neither local nor soft-deleted, with stale connections corrected |
| `ReadPath.MergedDistinct` | internal/api/filter.go:223-240 | no id is listed twice when neither input repeats one |
| `ReadPath.MergedIds` | internal/api/filter.go:223-240 | an id is listed exactly when it is local or stored and not soft-deleted |
| `ReadPath.ListAndDetailAgree` | internal/api/handler.go:149-175 | the detail view finds an id exactly when the merged list has it, with the same agent |
| `Cluster.NothingAheadOfTheTruth` | internal/persistence/postgres.go:54-75 | in every run of any replicas, crashes included, no registry, snapshot or stored session is ahead of the true last check-in |
| `Cluster.DeadAgentsShowDisconnected` | internal/api/filter.go:223-260 | an agent silent everywhere past the threshold is never shown connected by a replica that knows it only from the store |
| `Cluster.NothingSilentAfterSweep` | internal/fleet/registry.go:609-643 | right after a sweep a replica shows no silent agent connected at all |
| `Cluster.HiddenOnceSoftDeleted` | internal/api/filter.go:223-240 | once soft-deleted, an agent is neither listed nor found by a replica that does not hold it, whatever is saved of it, while its row lives |
| `Cluster.ComesBackHidden` | internal/persistence/postgres.go:162-184 | a run in which an agent comes back, registered and saved on one replica and not found on another |
| `RunConcurrent.AtMostLimitRunning` | internal/persistence/write.go:51-67 | in every reachable state at most max(1, maxConcurrent) tasks run |
| `RunConcurrent.EachTaskRanOnce` | internal/persistence/write.go:51-67 | on return each task has run exactly once, every slot is free and nothing is pending |
| `RunConcurrent.EveryScheduleReturns` | internal/persistence/write.go:51-67 | no state before the return is stuck, and every schedule returns after the same number of steps |
| `RunConcurrent.StuckTasksDoNotBlockOthers` | internal/persistence/write.go:44-67 | while fewer tasks than slots are stuck, the others can always go on |
| `RunConcurrent.Chunk` | internal/persistence/write.go:76-97 | the groups concatenate to the ids, none is empty, all but the last have exactly the size |
| `Paging.BeforeIsTotal` | internal/api/paginate.go:48-58 | byte order on UIDs is a strict total order |
| `Paging.AgentMaxHeap.Up` | internal/api/paginate.go:60-69 | sifting up restores the heap and permutes it |
| `Paging.AgentMaxHeap.Down` | internal/api/paginate.go:60-69 | sifting down restores the heap, permutes it, and says whether it moved |
| `Paging.AgentMaxHeap.Push` | internal/api/paginate.go:35 | adds the agent and keeps the heap |
| `Paging.AgentMaxHeap.ReplaceRoot` | internal/api/paginate.go:38-41 | exchanges the largest kept agent for the new one and keeps the heap |
| `Paging.RootIsLargest` | internal/api/paginate.go:60-64 | nothing in the heap sorts after its root |
| `Paging.Smallest` | internal/api/paginate.go:32-42 | the heap ends with end agents, none of which sorts after any it dropped, and together they are the input |
| `Paging.SortingsAgree` | internal/api/paginate.go:48-58 | any two sorts of a list agree on its UIDs, and on its agents when no UID repeats |
| `Paging.PageByInstanceUID` | internal/api/paginate.go:22-46 | the page is the slice of the full sort: the same UIDs always, the same agents when UIDs are distinct |
| `Paging.ListPage` | internal/api/handler.go:131-134 | for every offset and limit the page is that window of the sorted list |
| `Paging.PagesConcatenate` | internal/api/handler.go:131-134 | consecutive pages of any size concatenate to the whole list |
| `Matcher.SearchIsComplete` | internal/api/filter.go:82-84 | wherever the pattern can match, the search stops: greedy blanks and operator order lose nothing |
| `Matcher.SearchIsSound` | internal/api/filter.go:82-84 | the search stops only where the pattern matches |
| `Matcher.KeyIsNeverMissing` | internal/api/filter.go:92-115 | the missing-key error is never returned |
| `Matcher.RoundTripExactly` | internal/api/filter.go:57-130 | parsing a printed matcher gives it back exactly when its key, operator and value meet the stated condition |
| `Matcher.ParsedMatchersMayNotSurvive` | internal/api/filter.go:57-130 | a parsed matcher can print to text that parses differently |
| `Matcher.PlainMatchersSurvive` | internal/api/filter.go:57-130 | in particular for every trimmed key without "=", "!" or newline and every plain value |
| `Handler.Handler.OnConnecting` | internal/opamp/handler.go:144-162 | a draining handler refuses; otherwise a connection starts unflagged and without agents |
| `Handler.Handler.OnStatus` | internal/opamp/handler.go:165-186 | tracks the agent, takes the report with the connection's metadata, and asks for full state when the registered agent has no description |
| `Handler.Handler.OnGatewayConnect` | internal/opamp/handler.go:202-237 | flags the connection and counts it once, however often it is sent; a malformed payload is rejected |
| `Handler.Handler.OnConnectionClose` | internal/opamp/handler.go:239-260 | counts a closed gateway, and for WebSocket alone disconnects each tracked agent |
| `Handler.DisconnectsInAnyOrder` | internal/opamp/handler.go:257-259 | the order of the walk does not matter to the agents |
| `Handler.GatewaysAreCounted` | internal/opamp/handler.go:202-247 | in every run opened minus closed gateways is the number of open connections flagged as gateways |
| `Handler.FullStateIsAskedExactly` | internal/opamp/handler.go:178-195 | in every run full state is asked for exactly when the agent has sent no description since it was last registered |
| `Handler.TracksItsReporters` | internal/opamp/handler.go:272-283 | a connection tracks exactly the agents that reported over it since it opened |
| `Handler.CloseDisconnectsItsReporters` | internal/opamp/handler.go:239-260 | a close disconnects exactly the agents that reported over that WebSocket |
| `Handler.LateCloseDisconnects` | internal/opamp/handler.go:257-259 | a run in which the late close of a first WebSocket disconnects an agent that reported over a second |
| `YamlDisplay.ComputeGcd` | internal/ui/ui.go:738-746 | on all integers, with the sign-following remainder, computes the gcd of the magnitudes |
| `YamlDisplay.GcdDivides` | internal/ui/ui.go:738-746 | the gcd divides both numbers |
| `YamlDisplay.GcdIsGreatest` | internal/ui/ui.go:738-746 | every common divisor divides the gcd |
| `YamlDisplay.ExpandTabs` | internal/ui/ui.go:682-702 | replaces each tab by spaces up to the next even column |
| `YamlDisplay.ExpandedKeepsColumns` | internal/ui/ui.go:682-702 | every character stays in the column it was shown in |
| `YamlDisplay.ExpandedFillsWithSpaces` | internal/ui/ui.go:682-702 | every other column holds a space |
| `YamlDisplay.UnitDivides` | internal/ui/ui.go:703-719 | the unit divides every content indent |
| `YamlDisplay.UnitIsGreatest` | internal/ui/ui.go:703-719 | every common divisor of the content indents divides the unit |
| `YamlDisplay.YamlDisplay` | internal/ui/ui.go:677-736 | the loops over the lines compute the specified text |
| `YamlDisplay.RescaledUnitIsTwo` | internal/ui/ui.go:720-734 | after a rescaling the unit is exactly two |
| `YamlDisplay.DisplayIsIdempotent` | internal/ui/ui.go:677-736 | displaying displayed text changes nothing, for every string |
| `YamlDisplay.DisplayScalesExactly` | internal/ui/ui.go:720-734 | the lines and their text are kept, content indents are divided exactly and keep their strict order, and no line overtakes another |
| `YamlDisplay.CommentsMayCollapse` | internal/ui/ui.go:703-734 | a deeper comment can be shown level with the line above it |
| `YamlDisplay.DisplayKeepsOrderExactly` | internal/ui/ui.go:720-734 | of any two lines of text, comments included, one is shown strictly deeper exactly when its indent, cut down to a multiple of the scale, is deeper than the other's |

## Left out

- Freshness.StoredSessionsStayFresh: the agent's own writes do not fail and its own row is not removed; nothing is asked of other agents.
- Flush.NoLostUpdate: each agent's report times are taken to increase; an agent whose shard is write-locked at that instant is not covered.
- Flusher.Flusher.FlushOnce: the agent_connections upserts of the pass are not modelled, and saves are made one after another; that their order does not matter is proved, and the concurrency is the subject of RunConcurrent.
- Snapshotter.SessionSnapshotter.SnapshotOnce: the per-agent path; batches sent through pgx.Batch are not modelled.
- Paging.SortByInstanceUID: stands for the library sort by its contract alone; its body is not the library's.
- Handler.Handler.OnConnecting: the transport is a parameter; header case folding is not modelled.
- The agent_connections, role mapping, job and job target tables and their statements.
- MatchingAgents, AgentMatches, matchAttr and ParseFilters: filtering a list by attribute and boolean fields.
- The regular-expression engine: which patterns compile is a parameter, and matching values against them is not modelled.
- SQL text, JSON, driver and pool behaviour: each statement is one step with a success or failure result.
- FNV hashing and UUID rendering: the hash is any function, and an instance uid is given or invalid.
- Attribute value stringification and capability decoding.
- Strings are sequences of characters; invalid UTF-8 is not modelled.
- 64-bit overflow of durations and counters, and the rounding of timestamps by Postgres.
- HTTP routing, JSON views, templates, TLS set-up, metrics, logging and configuration loading beyond the positivity of the two fleet settings.
