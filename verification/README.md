# watchd, modelled and proved in Dafny

watchd keeps many clients' projections of a PostgreSQL table up to date. A
client asks for one scope of one table, receives its rows (a snapshot) and then
every committed change to it, and is told from time to time that it is complete
through some position ("fresh through cursor p"). This project models the code
that carries that promise, end to end, and proves it.

| files | what they model |
|---|---|
| `Sequences`, `Cdc`, `Visibility`, `SnapshotText` | joining and splitting; positions, changes, transactions; which transactions a snapshot read already holds |
| `Relation`, `Tuple`, `Decoder`, `DecoderRuns`, `SchemaGate` | the pgoutput decoder: tuples, keys, memory limits, and the gate on table shapes |
| `Stream`, `Delivery` | one replication connection; connections one after another against a walsender and a slot |
| `Joint` | the reader and the hub in one run |
| `AcceptedReports`, `LostReport` | which reports of a changed table reach the hub; a run in which one does not |
| `HubSpec`, `Hub`, `HubInvariant` | the hub: a simple specification on values, the indexed class that refines it, and what every critical section keeps |
| `Watch`, `WatchInvariant`, `Progress`, `Witness` | any interleaving of Accept with any number of watchers; invariants over all runs; runs that show where an unconditional claim is false |
| `Store`, `Convergence` | the client's store; what snapshot rows and batches add up to, against the source's own history |
| `Sessions`, `CoveredRuns` | connections cut anywhere and resumed any number of times; runs whose snapshot is ahead of the stream |
| `Client`, `Protocol`, `Retry` | the SDK's stream handling, the grammar both sides share, the reconnect loop |
| `EndToEnd`, `SyncRuns` | the whole path, from the source's history to the rows an application sees; any run of Sync |
| `Paging`, `Retention` | keyset paging and message packing; the WAL retention policy |

How it fits together. `Delivery.ExactlyOnce` shows that the hub is handed the
published log once and in order, through any number of lost connections and
resends, each transaction holding what `DecoderRuns` says the decoder keeps of
it. `Joint.HubLogIsPublished` runs the reader and the hub's machine together: the
order that machine assumes of its source (`Watch.SourceStep`) always holds, so
every hub in such a run is one `WatchInvariant.ReachableInv` is about, and its
log is the published one. `Hub.Hub` refines `HubSpec`, on which the machine runs.
`Progress.ProgressExactIff`, `Sessions.SnapshotConverges`,
`Sessions.ChainConverges` and `Protocol.NoProtocolError` are about all reachable
states. `SyncRuns.SyncShows` puts them together: over any run of Sync, each stream
a snapshot or a resume and each ended anywhere but at an unsound Progress (the
first false claim below), a store that has a cursor shows its application the
source's history of the scope through that cursor, once it has passed everything
the last snapshot already held.

"The source's history" is what the hub accepted: the published transactions in
commit order, with the rows the decoder kept of them. A row dropped because its
table's shape disagrees with its baseline is not in it. `SchemaGate.NoSilentDrop`
says where such a drop is reported, and `AcceptedReports.DropIsTakenIff` when
the hub learns of it.

Hypotheses, each stated where it is used:

- The source log is ordered: a commit record lies before its end, and the next
  one starts at or after it (`Cdc.SourceOrdered`, `Delivery.PublishedLog`).
- A keepalive's position never passes a transaction of which the walsender has
  sent nothing yet (`Delivery.CanStep`). It may pass the one being sent.
- MVCC: a transaction a snapshot does not see never precedes one it sees that
  touches the same row (`Convergence.ConflictFree`), and the scope a snapshot
  scans holds what its covered transactions left (`EndToEnd.ScopeRead`).
- What left the replay ring before a snapshot watcher registered is covered
  (`Progress.HeadCovered`); for a resumed watcher this is proved.
- About a Progress whose position was sampled before the hub had received
  anything, which is then the snapshot's own cursor: what the snapshot does not
  cover commits at or after it (`Progress.BaseOk`). No other cut needs it.
- Key values hold no NUL, which no PostgreSQL text does (`Store.NulFree`).

Atomicity. Each section under the hub's mutex is one step, and so is each send.
A receive from a watcher's queue is one step before or after a concurrent
Accept. The tick Accept closes after unlocking is a step of its own. A `select`
with several ready cases may take any of them.

Six claims the code makes or suggests are false as they stand. Each has a
concrete run and the exact condition under which the claim holds:

- "Once the queue is drained the watcher is complete through the position": not
  for a watcher the hub has already ended, which may still take a closed tick
  (`Witness.UnsoundProgress`, `Progress.ProgressSoundIff`,
  `Progress.ProgressExactIff`).
- The replay floor set by the first snapshot covers every schema change: an
  eviction can forget one, and a resume from before it is then admitted
  (`Witness.FirstFloorMissesSchema`, `HubInvariant.FirstFloorCoversSchema`).
- Clearing a table's stale mark is justified by the overflow check before it:
  the two are separate sections (`Witness.StaleRace`,
  `WatchInvariant.ClearStaleJustified`).
- A baseline can always be found by its relation ID: not after a rename and a
  recreate (`Relation.RenameThenRecreateLosesEntry`, `Relation.CompleteIff`).
- A projection fresh through p is the history through p: a snapshot may be ahead
  of the stream, so it is what is covered or ends by p
  (`CoveredRuns.FreshBeyondPosition`, `Convergence.SelectedIsThrough`). After a
  resume from such a position a replayed transaction can move a row back, and
  the rows shown are neither (`CoveredRuns.FreshAtMixture`); row by row they are
  as `Convergence.ReplayedRow` says.
- A row dropped for its table's shape is never dropped silently: the report may
  ride on a resent transaction, which the hub ignores
  (`LostReport.ReportIsLost`, `AcceptedReports.DropIsTakenIff`).

`internal/watch/event.go` says that a Resync is a stream of its own. The code
also sends one in the middle of a snapshot and after live events, and the
grammar in `Protocol` follows the code.

## Model

| member | source | states |
|---|---|---|
| `SyncRuns.SyncShows` | sdk/go/watchd/client.go:129-315 | over any run of Sync, each stream a resume from the stored cursor or a new snapshot, cut after any message but an unsound Progress, or ended by a Resync, a store that has a cursor holds the source's whole history through it once it has passed every transaction the last snapshot covers |
| `SyncRuns.SyncHolds` | sdk/go/watchd/client.go:129-315 | and before that, exactly what the last snapshot watch's cursor selected with everything after it replayed; a store right after SnapshotEnd has no cursor |
| `SyncRuns.UnfinishedHidden` | sdk/go/watchd/client.go:247-266 | a snapshot stream cut before SnapshotEnd leaves the rows and the old cursor as they were |
| `EndToEnd.SyncConverges` | sdk/go/watchd/client.go:129-315 | a snapshot's stream and then any number of resumed ones, each cut after any message and split in any way, show the application exactly the transactions covered or ended by the first cut with everything after replayed through the cursor stored: the source's whole history through it once it has passed every covered transaction |
| `EndToEnd.FreshFromSnapshot` | sdk/go/watchd/client.go:207-315 | when a snapshot watch's stream, in any reachable state, reaches the application up to any Batch, or up to any Progress that skipped nothing, however rows were split into messages, the visible rows are the scope's transactions that are covered or end by the cursor then stored, in commit order; after a Progress they are reported fresh there. The rows are those of the scanned scope |
| `EndToEnd.FreshFromResume` | sdk/go/watchd/client.go:207-315 | likewise after a resume from any stored cursor: the visible rows are what the snapshot had selected with everything after its cursor replayed through the new one, and the scope's whole history once that has passed every covered transaction |
| `EndToEnd.ChainShown` | sdk/go/watchd/client.go:207-315 | after any number of resumed streams, each cut after any message, the visible rows and the stored cursor go together: everything after the snapshot watch's cursor replayed through the cursor held |
| `EndToEnd.ClientTracks` | sdk/go/watchd/client.go:247-313 | over any stream in the grammar the client's rows are those of the stream's snapshot, or its own, with every batch applied in order |
| `EndToEnd.EncodedBatches` | internal/server/server.go:157-230 | applying a stream's messages is applying the batches that were sent |
| `EndToEnd.EncodedRows` | internal/server/server.go:157-190 | the rows in a stream's messages are those of the snapshot pages, in order |
| `EndToEnd.PageEncodes` | internal/server/server.go:249-279 | the messages sendRows makes of a page encode that page |
| `EndToEnd.AtCut` | sdk/go/watchd/client.go:247-313 | at a cut the client raises no error, shows its base with every batch received applied, and holds the cursor of the last Batch or Progress |
| `Convergence.SnapshotReaches` | internal/cdc/types.go:269-277 | the fold of the covered transactions, then of the uncovered ones through a cursor, equals the fold of the selected ones in commit order, whenever no uncovered transaction precedes a covered one on the same row |
| `Convergence.Reorder` | internal/cdc/types.go:269-277 | applying a log's covered part and then its uncovered part gives each row what the log in order gives it |
| `Convergence.SelectedIs` | internal/cdc/types.go:269-277 | the selected transactions are exactly those covered or ending by the cursor |
| `Convergence.SelectedIsThrough` | internal/watch/hub.go:487-490 | the selected transactions are the whole history through the position if and only if every covered transaction ends by it |
| `Sessions.SentIsOwed` | internal/watch/hub.go:371-550 | in every reachable state, at any place and registered or not, the batches a watcher has been sent are a prefix of what the accepted log owes it |
| `Sessions.BatchCutExact` | internal/watch/event.go:36-39 | after any Batch, the batches received are exactly those of the relevant, needed transactions through that batch's cursor, and the cursor is an accepted, needed transaction's |
| `Sessions.CutExact` | internal/watch/hub.go:497-536 | likewise at any cut, after a Batch or after a Progress that skipped nothing |
| `Sessions.ReportExactIff` | internal/watch/hub.go:540-548 | after a Progress the batches received are exactly those through the position reported if and only if nothing the watcher needs was accepted between the hub ending it and its sample |
| `Sessions.SnapshotCutsCleanly` | internal/watch/hub.go:62-64 | every cursor a snapshot watch gives at a cut separates the scope's uncovered transactions into those before and those after it, so it can be resumed from |
| `Sessions.SnapshotConverges` | internal/watch/hub.go:419-491 | a client that installed a snapshot's rows and applied the batches received up to any cut holds the rows of exactly the scope's transactions that are covered or end by the cursor it holds, in commit order |
| `Sessions.ResumedExact` | internal/watch/hub.go:371-407 | a resumed watch, cut anywhere, has been received as one batch for each relevant transaction after its cursor and through the cursor held, across ring and queue |
| `Sessions.ChainExact` | internal/watch/hub.go:371-407 | any number of resumed watches, each from the cursor the one before it left, give together exactly what one would have: nothing lost, nothing repeated |
| `Sessions.ChainConverges` | internal/watch/hub.go:371-491 | a snapshot watch followed by any number of resumes, on any hubs fed the same history and each cut anywhere, ends in the selected rows with everything after replayed: the whole history once the cursor has passed every covered transaction |
| `Convergence.ReplayedRow` | internal/cdc/types.go:133-138 | what a replay leaves of a row: the history through the new cursor if no covered transaction beyond it touches the row, what is selected there if the replay does not touch it |
| `Convergence.ReplayReaches` | internal/cdc/types.go:133-138 | replaying everything after such a cursor over rows that already hold the covered transactions yields the whole history |
| `Convergence.ClientFolds` | internal/server/server.go:304-335 | applying the batches a log owes, as the wire carries them, folds exactly the needed transactions of the log |
| `Progress.ProgressExactIff` | internal/watch/hub.go:497-548 | when a watcher reports p it has been sent exactly the batches of the relevant, needed transactions ending by p, counting everything the hub has accepted or ever will, if and only if it was registered at its sample or nothing it needs was accepted between the hub ending it and the sample |
| `Progress.ProgressExact` | internal/watch/hub.go:497-536 | in particular for a watcher registered at its sample |
| `Progress.ProgressSoundIff` | internal/watch/hub.go:540-548 | for any watcher, Progress is sound if and only if it was registered at the sample or nothing it needs was accepted between the hub ending it and the sample |
| `Progress.ResumeHeadCovered` | internal/watch/hub.go:377-394 | for a resumed watcher nothing it needs had left the ring before it registered |
| `Witness.UnsoundProgress` | internal/watch/hub.go:540-548 | a run in which a watcher reports progress past a relevant, uncovered transaction it was never sent |
| `Witness.StaleRace` | internal/watch/hub.go:447-458 | a run in which a table's stale mark is cleared although its shape changed after the watcher registered |
| `Witness.FirstFloorMissesSchema` | internal/watch/hub.go:371-407 | a run in which another table's snapshot sets the first floor before a schema change of t, a later snapshot clears t's mark, and a resume of t from before the change is admitted |
| `CoveredRuns.FreshBeyondPosition` | internal/watch/hub.go:487-490 | a run whose snapshot read its cursor before two commits and its rows after them: any client that takes in its stream shows both rows and is told it is fresh at that cursor, through which the history is empty |
| `CoveredRuns.FreshAtMixture` | internal/watch/hub.go:371-407 | that run with a resume after the hub has accepted the first commit: any client then shows one row as the first commit left it and the other as the second did, and is told it is fresh at the first |
| `CoveredRuns.MixtureConverges` | internal/watch/hub.go:371-491 | the same run under the theorem on a snapshot and the resumes after it, whose conditions it meets |
| `CoveredRuns.MixtureIsShown` | sdk/go/watchd/client.go:129-181 | the same as a run of Sync |
| `WatchInvariant.RunKeeps` | internal/watch/hub.go:223-559 | every run of Accept, tick closes, Stop and watcher steps keeps the whole invariant |
| `WatchInvariant.ReachableInv` | internal/watch/hub.go:223-559 | the invariant holds in every state reachable from a new hub |
| `WatchInvariant.FanOutExact` | internal/watch/hub.go:264-292 | what a watcher has taken and what waits in its queue are its relevant transactions since it registered, in order: all while registered, a prefix afterwards, a strict one once dropped as slow; the queue never exceeds its bound |
| `WatchInvariant.NoLostWakeup` | internal/watch/hub.go:227-253 | a held tick is closed, or the Accept that owes its close is running, or it is current and taken with nothing accepted since the sample; no tick is closed twice |
| `WatchInvariant.ProgressIncreases` | internal/watch/hub.go:533-538 | the positions a watcher is told strictly increase |
| `WatchInvariant.FloorNeverFalls` | internal/watch/hub.go:575-598 | along any run the floor never falls once set, and stays past schema changes it has reached |
| `WatchInvariant.ClearStaleJustified` | internal/watch/hub.go:447-458 | whether a table has kept its shape since the watcher registered: always while it is registered; never once it was ended for a schema change; once ended as slow, exactly when no later transaction reported the table. A watch that has not returned is in one of the three |
| `HubInvariant.AcceptKeepsInv` | internal/watch/hub.go:255-262 | Accept keeps the ring as the newest part of the log, the floor at or past everything evicted, and a schema change taken while the floor is set leaves the floor at or past it |
| `HubInvariant.ReplayableIsComplete` | internal/watch/hub.go:563-569 | a replayable cursor has every accepted transaction committing at or after it in the ring, which is strictly increasing and at most maxReplay long |
| `HubInvariant.FirstFloorCoversSchema` | internal/watch/hub.go:627-640 | the first floor covers the last schema change unless the ring has overflowed, the change is in it but not newest, and the snapshot's cursor lies before it |
| `HubInvariant.RecordSnapshotKeepsInv` | internal/watch/hub.go:575-584 | recording a snapshot keeps the invariant, never lowers the floor and never moves one that is set |
| `HubInvariant.AcceptWatchers` | internal/watch/hub.go:260-292 | each watcher is ended before queuing if its table was reported, else queued exactly its part if it has one and there is room, else dropped, else untouched |
| `HubInvariant.LastEvictedStep` | internal/watch/hub.go:588-598 | what lastEvicted holds after each Accept, in closed form over the log |
| `HubSpec.OfferOneMore` | internal/watch/hub.go:284-290 | offering to a set of watchers is offering to them one at a time, in any order |
| `HubSpec.OfferEnough` | internal/watch/hub.go:264-274 | watchers a transaction does not concern may be left out of the hand-out |
| `Hub.Hub.Accept` | internal/watch/hub.go:223-300 | the indexed Accept does what the specification without routes and deliveries does, and names the tick to close |
| `Hub.Hub.DeliveryLocked` | internal/watch/hub.go:308-331 | finds a key's delivery or starts one, keeping keys distinct and the hash index empty or complete, on both sides of the switch |
| `Hub.Hub.CollectLocked` | internal/watch/hub.go:264-274 | the deliveries hold, for every watcher the transaction concerns, exactly its changes, each watcher once |
| `Hub.Hub.HandOutLocked` | internal/watch/hub.go:275-292 | handing out the deliveries, dropping full watchers on the way, equals offering to all watchers at once |
| `Hub.Hub.RecordLocked` | internal/watch/hub.go:249-258 | log, newest position, tick and ring after the bookkeeping part of Accept |
| `Hub.Hub.InvalidateLocked` | internal/watch/hub.go:627-640 | ends exactly the table's watchers, marks it stale and moves floor and lastEvicted, in the specification's terms |
| `Hub.Hub.RouteLocked` | internal/watch/hub.go:611-620 | finds or creates the one route of a table and scope column, leaving every watcher list as it was |
| `Hub.Hub.RegisterLocked` | internal/watch/hub.go:601-607 | registers a watcher, keeping index and registrations in agreement both ways |
| `Hub.Hub.RemoveLocked` | internal/watch/hub.go:644-657 | removes a watcher from both, and reports whether it was registered |
| `Hub.Hub.EndLocked` | internal/watch/hub.go:664-669 | removes a watcher and sets its reason, once |
| `Hub.Hub.CloseOverflow` | internal/watch/hub.go:664-669 | an overflow channel is closed only while open |
| `Hub.Hub.EvictLocked` | internal/watch/hub.go:588-598 | drops the oldest ring entry, overwrites lastEvicted and raises the floor |
| `Hub.Hub.New` | internal/watch/hub.go:176-218 | refused if and only if the source ID, the projections or the snapshotter is missing, a bound is negative, or a projection is unnamed or of another source; zero selects a default; projections are served under their qualified tables |
| `Hub.Hub.Position` | internal/watch/hub.go:554-559 | returns the newest position and the tick, and marks the tick taken |
| `Hub.Hub.ReplayableLocked` | internal/watch/hub.go:563-569 | true exactly from the floor on, never without one |
| `Hub.Hub.RecordSnapshotLocked` | internal/watch/hub.go:575-584 | sets the first floor at the later of the cursor and lastEvicted |
| `Hub.Hub.ResumeLocked` | internal/watch/hub.go:371-394 | refuses a stale table or an unreachable cursor, else registers with exactly the batches the ring owes |
| `Hub.Hub.SnapshotLocked` | internal/watch/hub.go:419-429 | keeps exactly the ring's transactions that concern the scope, and registers |
| `Hub.Hub.ClearStaleLocked` | internal/watch/hub.go:456-458 | removes one table's stale mark and nothing else |
| `Hub.Hub.Unregister` | internal/watch/hub.go:671-675 | removes the watcher, registered or not |
| `Hub.Backlog` | internal/watch/hub.go:381-391 | the batches of the ring's relevant transactions after the cursor, in order |
| `Hub.StreamedBatches` | internal/watch/hub.go:460-473 | deciding coverage later over the kept transactions gives what deciding it over the whole ring would |
| `Delivery.ExactlyOnce` | internal/cdc/stream.go:165-337 | over every run of connections, messages, corrupt data, keepalives, statuses, disconnects and confirmations, the hub's log is a gap-free, duplicate-free prefix of the published log, each transaction with the changes and the reported tables the decoder's reference reads off the messages, and no position ever sent, nor the slot's, lies past the commit of an unaccepted transaction |
| `Delivery.NextKeeps` | internal/cdc/stream.go:212-337 | every step keeps that invariant; a keepalive may be ahead of the transaction being sent |
| `Delivery.SafeNeverFalls` | internal/cdc/stream.go:165-337 | within a connection the acknowledged position never falls |
| `Delivery.HandsInOrder` | internal/watch/hub.go:238-258 | whatever the reader hands over and the hub takes is a resend it ignores or the next commit in order |
| `Joint.HubLogIsPublished` | internal/watch/hub.go:223-300 | in every state of every joint run of reader, hub and watchers, the hub is one its own machine reaches and its log is the beginning of the published log, with the changes and reports the decoder's reference reads off the messages; no confirmed position lies past a commit the hub does not have |
| `Joint.HandOver` | internal/cdc/stream.go:226-308 | whatever the reader hands over, the hub's Accept step is enabled for it, and both sides log the same |
| `Joint.LogGrows` | internal/watch/hub.go:249-258 | what the hub held at any point of a run stays the beginning of what it holds |
| `AcceptedReports.DropIsTakenIff` | internal/watch/hub.go:238-262 | over every run, a row dropped from an accepted transaction has its table reported by an accepted transaction, at or after the check that decided the drop, if and only if that check or a later one that finds the table again was made after the connection had stopped resending what the hub had |
| `AcceptedReports.TakenIff` | internal/watch/hub.go:238-262 | the same for any table found incompatible |
| `LostReport.ReportIsLost` | internal/watch/hub.go:243-247 | a run of connections, under a registry made by two validations of the table, after which no accepted transaction reports the table although a row of it was dropped |
| `LostReport.DropIsUntold` | internal/cdc/decoder.go:237-283 | in that run the row decodes, the check that dropped it reported the table, and it did so while resending |
| `LostReport.WatcherUntold` | internal/watch/hub.go:243-262 | a watcher of that table stays registered with its queue as it was, and the table unmarked |
| `Stream.Connection.ConsumeCopyData` | internal/cdc/stream.go:212-337 | each payload's effect on decoder, safe position, sink and statuses, with every error that ends the connection |
| `Stream.Connection.ConsumeXLog` | internal/cdc/stream.go:226-308 | the safe position moves to the commit's end only after the sink accepted the transaction |
| `DecoderRuns.DecoderRefines` | internal/cdc/decoder.go:144-230 | for every message sequence, a COMMIT emits exactly the changes a stateless reference keeps since its BEGIN and the tables it finds incompatible since the last COMMIT, or fails for want of a BEGIN; nothing else emits; the footprint is the sum of the estimates, within both limits |
| `DecoderRuns.EventsFollow` | internal/cdc/decoder.go:237-268 | the events a decoder holds are the ones the reference reads off the messages |
| `DecoderRuns.RowOutcome` | internal/cdc/decoder.go:164-192 | a row message goes through quietly if and only if its change was dropped for shape or is the next one kept |
| `DecoderRuns.FailureKeepsPending` | internal/cdc/decoder.go:285-301 | a failed message leaves the pending changes, their footprint and transaction ID as they were |
| `DecoderRuns.RelationsFollow` | internal/cdc/decoder.go:146-150 | the relations a decoder holds are those of the latest Relation messages, judged by the answers they were last checked against |
| `SchemaGate.NoSilentDrop` | internal/cdc/decoder.go:237-283 | every row dropped for shape has its table reported by the first transaction emitted after the check that decided the drop, which is no later than the row's own |
| `SchemaGate.RenameAnnounced` | internal/cdc/decoder.go:246-250 | a relation found to have taken over a projected table's relation ID under another name has that table reported by the next transaction emitted |
| `SchemaGate.ReportsHold` | internal/cdc/decoder.go:237-268 | a table is reported with the next COMMIT if and only if some check since the last one found it |
| `SchemaGate.DropIsReported` | internal/cdc/decoder.go:237-283 | a dropped row's table is reported by the very check that decided to drop it |
| `SchemaGate.GateIsCurrent` | internal/cdc/decoder.go:237-283 | a row not dropped agrees with its baseline, or has none, in a registry version at least as new as when the row arrived, although baselines are recorded concurrently |
| `Decoder.Decoder.Consume` | internal/cdc/decoder.go:144-230 | the whole new decoder state and outcome for each message |
| `Decoder.Decoder.Check` | internal/cdc/decoder.go:237-259 | relation and events after a check against the registry's answers |
| `Decoder.Decoder.Skip` | internal/cdc/decoder.go:273-283 | unknown relations fail; a moved generation is looked at first |
| `Decoder.Decoder.Report` | internal/cdc/decoder.go:261-268 | one event per table |
| `Decoder.Decoder.Append` | internal/cdc/decoder.go:285-301 | both limits, checked in order, and the new footprint |
| `Decoder.Decoder.constructor` | internal/cdc/decoder.go:123-140 | limits that are not positive select their defaults |
| `Decoder.EstimatedChangeBytes` | internal/cdc/decoder.go:593-612 | the estimate, whatever order the key map is walked in |
| `Decoder.KeyBytesAny` | internal/cdc/decoder.go:597-599 | a key's share of the estimate can be summed in any order |
| `Decoder.UpdateKeepsKey` | internal/cdc/decoder.go:341-376 | an update with an old tuple goes through if and only if the row keeps its key |
| `Decoder.DecodeUpdate` | internal/cdc/decoder.go:341-376 | errors in the source's order, key comparison column by column |
| `Decoder.DecodeChange` | internal/cdc/decoder.go:316-393 | the change of an insert, update or delete, by per-column decoding |
| `Tuple.DecodeRow` | internal/cdc/decoder.go:409-442 | slicing one string for the whole row equals decoding each column on its own |
| `Tuple.CheckRow` | internal/cdc/decoder.go:446-460 | the first column that fails decides the error |
| `Tuple.KeyFromValues` | internal/cdc/decoder.go:462-477 | the key of the decoded values, or why there is none |
| `Tuple.CheckKeyTuple` | internal/cdc/decoder.go:483-515 | complete rows and key-only tuples, each by its own rules |
| `Tuple.KeyFromTuple` | internal/cdc/decoder.go:528-549 | slicing one string for the key equals taking each key column |
| `Tuple.KeysCoincide` | internal/cdc/decoder.go:462-549 | the key from decoded values, from a complete old row and from key columns alone exist together and are equal, also when every column is a key column |
| `Tuple.NewRelationInfo` | internal/cdc/decoder.go:96-111 | columns, and the ascending positions of exactly the key columns |
| `Relation.Diff` | internal/cdc/relation.go:77-103 | None if and only if oid, identity, key and columns agree; otherwise the first difference |
| `Relation.SameRelations` | internal/cdc/relation.go:58-74 | two Relation messages present the same shape if and only if they agree on ID, identity, columns in order and the multiset of key names |
| `Relation.ShapeOfRelation` | internal/cdc/relation.go:58-74 | the shape, with the key sorted |
| `Relation.Shapes.Record` | internal/cdc/relation.go:141-157 | both indexes and the generation after a record |
| `Relation.RecordKeepsSound` | internal/cdc/relation.go:141-157 | whatever byOID holds is the current baseline of some table under its own ID, always |
| `Relation.RecordFinds` | internal/cdc/relation.go:141-157 | exactly which baselines a record loses from byOID |
| `Relation.CompleteIff` | internal/cdc/relation.go:141-157 | over any run of records byOID stays complete throughout if and only if no shape was recorded under an ID another table's baseline had |
| `Relation.RenameThenRecreateLosesEntry` | internal/cdc/relation.go:148-155 | three records after which a live baseline cannot be found by its ID |
| `Visibility.WidenExact` | internal/cdc/visibility.go:73-80 | widening the low 32 bits recovers a 64-bit ID if and only if it lies within 2^31 of xmax, up to the clamp at 0 |
| `Visibility.IncludesAgrees` | internal/cdc/visibility.go:61-71 | includes agrees with 64-bit MVCC visibility across wraparound |
| `SnapshotText.ParseVisibility` | internal/cdc/visibility.go:28-54 | accepts exactly the well-formed texts, and yields only xmin <= xip < xmax |
| `SnapshotText.PrintedParses` | internal/cdc/visibility.go:28-54 | a printed snapshot is accepted if and only if its range and list are in order |
| `SnapshotText.RoundTrip` | internal/cdc/visibility.go:28-54 | parsing inverts printing |
| `Store.MemoryStore.Apply` | sdk/go/watchd/store.go:111-141 | the changes in order, all or up to the first that cannot be applied, and the cursor only in the first case |
| `Store.RedeliveryHarmless` | sdk/go/watchd/store.go:111-141 | after any changes, redelivering any suffix of them leaves the rows unchanged |
| `Store.RunRowIdempotent` | sdk/go/watchd/store.go:111-141 | any change list is idempotent on any row, with unchanged columns, deletes and repeated keys |
| `Store.EffectRuns` | sdk/go/watchd/store.go:111-141 | a change list does to a row what its normal form does |
| `Store.RowIdInjective` | sdk/go/watchd/store.go:187-197 | NUL-free keys share a row if and only if they are equal |
| `Store.NulCollides` | sdk/go/watchd/store.go:187-197 | with a NUL two different keys collide |
| `Store.KeyOf` | sdk/go/watchd/store.go:187-197 | the row ID, or none if a key column is missing |
| `Store.MemorySnapshot.Put` | sdk/go/watchd/store.go:154-171 | collects rows aside, failing if and only if one lacks a key |
| `Store.MemorySnapshot.Commit` | sdk/go/watchd/store.go:173-179 | replaces rows and clears the cursor at once |
| `Client.Syncer.Stream` | sdk/go/watchd/client.go:207-315 | the cursor asked for, which is the stored one or none for a snapshot, and the store, the status and its reports after a whole stream |
| `Client.Syncer.OnEvent` | sdk/go/watchd/client.go:247-313 | one event's effect, with every protocol and store error |
| `Client.Syncer.SetState` | sdk/go/watchd/client.go:318-335 | reports a status only when it changes |
| `Client.FreshIsConfirmed` | sdk/go/watchd/client.go:293-305 | a status is fresh at c only after Progress(c) on the current stream with no SnapshotBegin since |
| `Client.ReportsAreConfirmed` | sdk/go/watchd/client.go:318-335 | and so was every fresh report when it was made |
| `Client.SnapshotHidden` | sdk/go/watchd/client.go:248-266 | until SnapshotEnd the visible rows and cursor stay, and the rows collected do not depend on how messages were split |
| `Client.SnapshotSwaps` | sdk/go/watchd/client.go:268-278 | SnapshotEnd replaces the whole projection with the rows received |
| `Client.OnlyWholeSnapshotsShow` | sdk/go/watchd/client.go:247-313 | over any stream, in the grammar or not, as far as it is handled, the visible rows are those of the last complete snapshot, or those it found, with every change since applied in order |
| `Client.RowsAtFailure` | sdk/go/watchd/client.go:247-313 | the event that ends a stream changes the visible rows only if it is a batch, by the changes before the first it cannot apply |
| `Protocol.WatchFollowsGrammar` | internal/watch/hub.go:341-550 | everything any watcher is sent in any run is in one grammar; one about to report is past its snapshot, with which its stream opened if and only if it did not resume |
| `Protocol.ClientAgrees` | sdk/go/watchd/client.go:247-313 | the SDK's own check accepts the whole grammar, and expects rows exactly inside a snapshot |
| `Protocol.NoProtocolError` | internal/watch/event.go:11-17 | on whatever a watcher was sent, however rows are split and wherever the connection is cut, the SDK raises no protocol error |
| `Retry.Sync.Turn` | sdk/go/watchd/client.go:129-181 | the loop's variables and decision after each stream; the base of a wait is within the bounds |
| `Retry.Sync.constructor` | sdk/go/watchd/client.go:111-116 | the defaults put the two bounds in order |
| `Retry.BoundedSpinning` | sdk/go/watchd/client.go:129-181 | from any state at most two reconnects follow each other without a wait, and only the first can be for a refused cursor |
| `Retry.BackoffBounded` | sdk/go/watchd/client.go:162-180 | backoff, and the base of every wait before jitter, stay within the bounds |
| `Retry.BackoffDoubles` | sdk/go/watchd/client.go:162-180 | however the streams ended, as long as none progressed and each was followed by a wait, the waits double up to the bound |
| `Paging.ScanScopedRows` | internal/cdc/snapshot.go:250-282 | the keyset loop ends, its pages are non-empty, at most batchRows and full but the last, and concatenate to the scope, or to a prefix with the reason: a missing key, a failed query or a failed sink |
| `Paging.SendRows` | internal/server/server.go:249-279 | messages are non-empty, within the bound or a single row, none could hold the next row, and concatenate to the rows; when a row does not convert or a send fails, to a beginning of those that do, and the failure is one of the two |
| `Paging.SendSnapshot` | internal/server/server.go:249-279 | the scan's pages packed into messages always carry a beginning of the scope, and the whole scope in order if nothing failed |
| `Retention.NextRetentionState` | internal/cdc/retention_policy.go:61-86 | the loop equals its closed form |
| `Retention.NextLaws` | internal/cdc/retention_policy.go:61-86 | idempotent, monotone in state and in retained bytes, terminal absorbing |
| `Retention.RunMonotone` | internal/cdc/retention_policy.go:61-86 | raising a whole run of samples never lowers the state it ends in |
| `Retention.TerminalStays` | internal/cdc/retention_policy.go:61-64 | once terminal, terminal after every further sample |
| `Retention.LeavesAt` | internal/cdc/retention_policy.go:75-84 | exactly which samples leave a state downward |
| `Retention.EntersAt` | internal/cdc/retention_policy.go:65-74 | exactly which samples enter one |
| `Retention.ReentryNeedsRise` | internal/cdc/retention_policy.go:61-86 | re-entering a state after leaving it downward takes a rise of more than 5% of the budget |

## Left out

- Sources: one source feeds the hub, so a cursor is its position; comparing cursors of different sources, `MinCursor` and cursor text are not modelled.
- Sharing between watchers: `Memo` and the bytes it caches for one batch.
- Bounds on integers: positions, generations and backoff durations do not wrap around; 32-bit and 64-bit transaction IDs do.
- Retention ratios are exact reals, not float64.
- Timers, jitter and clocks: a status or a wait may come at any time; commit times are dropped.
- PostgreSQL connections, slot creation and drop, bootstrap, catalog queries and validation: the walsender, the slot and the page query are environment steps with stated contracts.
- A process restart: the hub's log starts empty and the slot at or before the first commit.
- gRPC, protobuf conversion, status codes beyond the classes Sync tells apart, metrics, logs and configuration parsing.
- The three small entry checks of Watch and the source's own start and stop machine.
- Client.Syncer.Stream: models the in-memory store; a store that fails for other reasons than a missing key or an unknown operation is not modelled.
- Stream.Connection.ConsumeCopyData: takes a payload already told apart into its kinds; byte parsing of XLogData, keepalives and pgoutput is not modelled.
- Decoder.Decoder.Consume: error values carry their kind, not their text.
- Paging.ScanScopedRows: the page query returns rows in key order after the given key; how PostgreSQL orders keys is not modelled.
