# Verified model of the ride-hailing streaming platform

The platform generates ride events, folds them into one session record per ride with a
transactional stream processor, lands them in Postgres and in an Iceberg table, and derives
shifts, percentiles and a ride fact from them. This project models that code in Dafny and proves
the guarantees it is built for, on every run rather than on chosen ones. `dafny verify dfyconfig.toml`
checks it all.

**The transactional sessionizer** (`Lifecycle`, `SessionFold`, `StateStore`, `Broker`, `Steps`,
`Sessionizer`, then `Protocol` and the files that prove it). A partitioned log of ride events and
poison messages grows without bound. One process folds it in memory, journals each batch to a local
store and then commits sessions, clean mirror, dead letters and offsets in one broker transaction.
The store commits first, so a crash can fall between the two commits; a commit can be applied
although the call raises; an abort can raise too; recovery itself can be interrupted. The classes
follow the source's objects, each method is proved equal to a step function, and the state machine of
`Protocol` takes those steps in any order. `Guarantees`, `ClosingGuarantees` and `RecoveryGuarantees`
hold the theorems: exactly-once output, correct and unique sessions, which rides a batch closes and
which it must not, exact and repeatable recovery, what purging leaves.

**The session fold** (`FoldLaws`): what a session's columns stand for, and when arrival order and
duplicates cannot show (an exact condition).

**The Postgres sink** (`PgSink`, `SinkProtocol`, `SinkTables`, `SinkGuarantees`): tables and stored offsets change
in one transaction, so whatever is rolled back or replayed, the four tables are one-shot folds of the
stored prefixes, given column by column. Replays are invisible; re-derived sessions converge in the columns the upsert lists.

**End to end** (`Events`, `Transport`, `EndToEnd`, `LedgerGuarantees`): a table row is the ride's one
committed session; the drained event ids are the acknowledged ones; a repaired dead letter comes
back exactly once.

**The generator** (`Draws`, `Fleet`, `RideScene`, `Rides`, `RideSimulator`, `Holding`,
`Imperfections`, `Simulate`, `GeneratorGuarantees`): every random draw is an arbitrary value in the
range the code allows. Drivers are owned exclusively, no ride is ever stuck or illegal, the
imperfection layer conserves events, and what it emits meets the hypotheses of the session fold.

**Downstream** (`Lakehouse`, `LakehouseProtocol`, `LakehouseBounds`, `Quantiles`, `Shifts`, `FactTable`):
at-least-once appends, the histogram quantile bound, shifts as maximal runs, incremental merges against a rebuild.

## Where the code and its documentation differ

- The watermark of a partition starts at 0. So a ride whose last activity lies more than the timeout
  before the epoch can be abandoned although no event outlived it (`EarlyRideAbandoned`); for every
  other last activity, and for no such one, abandonment is always justified
  (`AbandonmentJustifiedIff`).
- `terminal` scans slots in insertion order, so the fold is order-insensitive only for rides with at
  most one terminal kind (`OrderAndDuplicatesIgnored`, both directions).
- A richer close replaces only the columns the UPDATE lists. The others keep the first
  arrival, so the row depends on arrival order (`ArrivalOrderShows`); `WholeRowConvergesIff` says
  exactly when it does not.
- A driver's offline ping has the time of the idle ping sent just before it, and
  `raw.driver_locations` is keyed by driver and time with the first writer kept. So no row of the fleet
  ever has status offline (`OfflineIsNeverStored`), and the offline marker of the shift model never
  divides shifts built on that table; only the 30-minute gap does (`OfflineNeverDividesShifts`).
- The percentile view is documented as at most one bucket above the exact value. In the open-ended
  bucket it reports 305 seconds whatever the value (`QuantileBound`).
- The lakehouse sink does not drop its buffer when partitions are reassigned, so a row can repeat any
  number of times without a crash (`ReassignmentsRepeatRows`). "One plus the crashes" holds when
  partitions are assigned to an empty buffer only (`CrashesBoundCopies`), and both bounds are reached.

## Model

| member | source | states |
|---|---|---|
| `Guarantees.ExactlyOnce` | src/processors/ride_sessionizer.py:245-390 | in every reachable state, under any interleaving of batches, commits, ambiguous commits, aborts, crashes and restarts: each partition's clean mirror is its decodable events below the committed offset, in order; its dead letters are the poison messages below it, in order; every message is in exactly one of the two; and no ride has two committed sessions |
| `Guarantees.TerminalHasSession` | src/processors/ride_sessionizer.py:305-324 | a ride with a terminal event below its partition's committed offset has exactly one committed session |
| `ClosingGuarantees.ClosedExactly` | src/processors/ride_sessionizer.py:305-324 | an applied batch that read something on a ride's partition leaves the ride with one session exactly when it had one, or its events up to the new committed offset hold a terminal one, or its last activity lies more than the timeout before the partition's watermark or before an event of this batch; otherwise with none |
| `ClosingGuarantees.IdleRideIsClosed` | src/processors/session_builder.py:135-137 | an idle ride is abandoned: when an applied batch reads an event of its partition more than the timeout after its last one, it has its one session afterwards |
| `ClosingGuarantees.CommitHolds` | src/processors/ride_sessionizer.py:260-303 | after a committed batch the process holds the same partitions, each with the highest of its watermark and the event times read, and every offset read is committed |
| `ClosingGuarantees.MessagesRead` | src/processors/ride_sessionizer.py:253-283 | the watermark the message loop reaches: not below the one before nor any event time read, and attained |
| `Guarantees.SessionsAreDerived` | src/processors/ride_sessionizer.py:253-324 | every committed session is `build_session` of the fold of all its ride's decodable events at offsets up to its close tag, with the timeout flag only when none of them is terminal; without a terminal event the ride had gone idle |
| `Guarantees.AbandonmentJustified` | src/processors/session_builder.py:135-137 | an abandoned session implies an event of its partition, at an offset up to its tag, lying more than the timeout after the ride's last activity, provided that activity does not lie more than the timeout before the epoch |
| `Guarantees.AbandonmentJustifiedIff` | src/processors/ride_sessionizer.py:274-319 | that condition is exact: over all runs, abandonment at a given last activity is always justified if and only if the activity is not more than the timeout before the epoch, where the watermark starts (or the timeout is negative) |
| `Guarantees.EarlyRideAbandoned` | src/processors/ride_sessionizer.py:274-319 | the failing family: whenever a ride's only event lies earlier than that, a reachable world holds its committed abandoned session and no event outlives it |
| `Guarantees.StepKeeps` | src/processors/ride_sessionizer.py:180-390 | every step (produce, assignment, interrupted assignment, revocation, crash, batch with each way it can end) keeps the invariant that relates log, topics, store and memory |
| `RecoveryGuarantees.RecoveryIsExact` | src/processors/ride_sessionizer.py:180-207 | whenever a partition is held at two points of a run with no transaction on it in between, whatever batches died, aborted or were rolled back, its closes, its open rides' journal rows and every accumulator are the same slot for slot |
| `RecoveryGuarantees.RecoveryIsRepeatable` | src/processors/ride_sessionizer.py:180-207 | a second crash and recovery changes nothing further: store, watermark, closes, open rows and accumulators |
| `RecoveryGuarantees.PurgeIsSafe` | src/processors/state_store.py:101-129 | over every run committed offsets never decrease; a confirmed close keeps its row and its ride is never folded again; a committed journal row disappears only for a ride whose close is confirmed |
| `RecoveryGuarantees.HeldRow` | src/processors/state_store.py:120-145 | on a held partition the open rides' journal rows are exactly the decodable events below the committed offset of the rides without a confirmed close |
| `RecoveryGuarantees.RecoveredJournal` | src/processors/state_store.py:101-129 | after recovery the partition's journal holds exactly the decodable events below the committed offset of the rides without a committed session, so every row of a closed ride is purged; the rows of other partitions stay as they were |
| `RecoveryGuarantees.RecoveredWatermark` | src/processors/ride_sessionizer.py:195-196 | the recovered watermark is the highest time among those events, and 0 when there is none |
| `RecoveryGuarantees.OthersUntouched` | src/processors/ride_sessionizer.py:180-214 | assigning or revoking a partition changes nothing of another one: whether it is held, its watermark, its rides' slots, its journal rows and closes |
| `RecoveryGuarantees.RevokedIsForgotten` | src/processors/ride_sessionizer.py:209-214 | a revoked partition leaves no watermark, no slots and no ride entry behind, and the disk is left alone |
| `RecoveryGuarantees.WatermarkRecovers` | src/processors/ride_sessionizer.py:195-196 | the recovered watermark is at most the one before the crash, exactly when that one was not negative or an open ride remains |
| `ProtocolProof.RecoveredRides` | src/processors/ride_sessionizer.py:184-194 | after rollback and purge a ride of the partition is open exactly when it has committed events and no confirmed close, and refolding its rows gives the fold of its log below the committed offset |
| `BatchProof.MessagesKeep` | src/processors/ride_sessionizer.py:253-283 | after any delivered messages: mirror and dead-letter buffers, rows, watermarks and accumulators agree with the log up to the position read |
| `BatchProof.NewCloseOk` | src/processors/ride_sessionizer.py:305-324 | a close made by a batch is tagged with the partition's highest offset in it, and its session is the derivation of all the ride's events up to that tag, including those after the terminal one |
| `BatchProof.GapOk` | src/processors/ride_sessionizer.py:285-293 | a crash between the store's commit and the transaction leaves a store that recovery can repair |
| `BatchProof.PublishedOk` | src/processors/ride_sessionizer.py:326-376 | an applied transaction publishes each new close's session once and moves the committed offsets past the batch, crash or not |
| `Sessionizer.Sessionizer.OnAssign` | src/processors/ride_sessionizer.py:180-207 | recovery of each assigned partition is the step function of the protocol: rollback, purge, refold, watermark (what that leaves is `RecoveredJournal`, `RecoveredRides` and `RecoveredWatermark`) |
| `Sessionizer.Sessionizer.LoadRides` | src/processors/ride_sessionizer.py:188-194 | memory gains, for each open ride, the fold of its journalled events and its partition |
| `Sessionizer.Sessionizer.OnRevoke` | src/processors/ride_sessionizer.py:209-214 | forgets exactly the accumulators, ride-to-partition entries and watermark of the revoked partitions |
| `Sessionizer.Sessionizer.ProcessBatch` | src/processors/ride_sessionizer.py:245-303 | one batch ends as one of: consumer error before any write; exit in the two-store gap; committed; raised, after the commit was or was not applied, with all, some or none of the batch's partitions rolled back depending on whether the abort or the read of a committed offset raises too; each with the exact store, topics, offsets and, when it committed, memory |
| `Sessionizer.Sessionizer.FoldMessages` | src/processors/ride_sessionizer.py:253-283 | the message loop is the left fold of the one-message step; it stops exactly at a consumer error |
| `Sessionizer.Sessionizer.TakeRecord` | src/processors/ride_sessionizer.py:260-283 | one record: highest offset, poison envelope, mirror, watermark, journal row and accumulator |
| `Sessionizer.Sessionizer.CollectCloses` | src/processors/ride_sessionizer.py:305-324 | a close for exactly the rides on a partition with new input that have a terminal event or lie more than the timeout behind that partition's watermark, each once, tagged with the partition's highest offset |
| `Sessionizer.Sessionizer.Transact` | src/processors/ride_sessionizer.py:326-390 | sessions, mirror, dead letters and offsets become visible together or not at all; on a raise every partition of the batch is rolled back to the committed offset, unless the abort raises or some committed offset cannot be read, which ends the rollback there |
| `StateStore.StateStore.AppendBatch` | src/processors/state_store.py:80-99 | journal rows are inserted unless their key exists, closes replace by ride |
| `StateStore.StateStore.RollbackFrom` | src/processors/state_store.py:101-118 | erases exactly the rows and closes of the partition tagged at or beyond the resume offset |
| `StateStore.StateStore.PurgeConfirmed` | src/processors/state_store.py:120-129 | erases exactly the journal rows of rides whose close on the partition is tagged below the offset |
| `StateStore.StateStore.OpenRides` | src/processors/state_store.py:133-145 | every ride of the partition without a close, with its journalled events in offset order, and no other ride |
| `StateStore.StateStore.MaxJournalTs` | src/processors/state_store.py:151-157 | the highest event time journalled on the partition, none when nothing is |
| `FoldLaws.OrderAndDuplicatesIgnored` | src/processors/session_builder.py:29-46 | for identical duplicates, every reordering with any repetitions yields the same session if and only if at most one terminal kind is among the events |
| `FoldLaws.OneTerminalIgnoresOrder` | src/processors/session_builder.py:62-132 | one direction for two given arrival orders, with or without a timeout |
| `FoldLaws.BothTerminalsShowOrder` | src/processors/session_builder.py:33-39 | the other: with both terminal kinds, two arrival orders of the same events give different sessions |
| `FoldLaws.SameSlotsSameSession` | src/processors/session_builder.py:49-132 | a session depends on the slot contents and on which terminal kind came first, and on nothing else |
| `FoldLaws.FoldSlot` | src/processors/session_builder.py:29-31 | the fold holds, per kind, the last event of that kind |
| `FoldLaws.SessionColumns` | src/processors/session_builder.py:62-132 | the time, count, fare and duration columns in terms of the ride's events: each lifecycle time is that of the kind's last event, a ride without a request counts as requested at its latest event, `event_seq` counts the distinct kinds, durations are not below zero |
| `FoldLaws.SessionClosing` | src/processors/session_builder.py:62-132 | completed, cancelled and abandoned sessions: which events each needs, its end time, and that only completed rides have a duration |
| `FoldLaws.FirstIsLeading` | src/processors/session_builder.py:54-59 | the search over the slots in ordinal order finds the field of the first of requested, matched, arrived, started, completed and cancelled whose last event carries it |
| `FoldLaws.EarliestKindLeads` | src/processors/session_builder.py:54-59 | in other words: a field has a value exactly when some kind's last event carries it and that of no earlier kind carries any, and is missing exactly when none does |
| `FoldLaws.OrdinalsFollow` | src/generator/state_machine.py:26-45 | the ordinals are 1 to 6 in that order |
| `FoldLaws.SessionFields` | src/processors/session_builder.py:62-132 | which columns those are, the defaults of pickup and surge, distance from the four coordinates, and a speed exactly with a distance and a positive duration, with speed times duration the distance |
| `FoldLaws.SessionHasRider` | src/processors/session_builder.py:62-132 | a session of at least one event has its rider and its city |
| `FoldLaws.LastTsIsMax` | src/processors/session_builder.py:42-43 | the last event time is the maximum over the slots |
| `SessionFold.RideAccumulator.Add` | src/processors/session_builder.py:29-31 | overwrites the slot of the event's kind in place, or appends it |
| `SinkProtocol.SinkRefinement` | src/processors/pg_sink.py:247-288 | in every run with rollbacks, crashes, ambiguous commits and reassignments the four tables are one-shot folds over each partition's prefix up to its stored offset: first writer for events, payments and locations, richest close for sessions |
| `SinkTables.LocationRows` | src/processors/pg_sink.py:276-279 | in every reachable sink world raw.driver_locations has a row for a driver and a time exactly when a location of that driver and time lies below its partition's stored offset, and it is the first of them |
| `SinkTables.EventRows` | src/processors/pg_sink.py:247-254 | the same for raw.rides_events by ride and kind, with the coordinates of that first record |
| `SinkTables.PaymentRows` | src/processors/pg_sink.py:272-275 | the same for raw.payments_transactions by transaction |
| `SinkTables.SessionRows` | src/processors/pg_sink.py:255-271 | raw.ride_sessions has a row exactly for the rides with a session below the stored offset; column by column, the listed ones are those of the first of the richest sessions, the others those of the first session |
| `SinkTables.TablesKeepConstraints` | src/processors/pg_sink.py:80-139 | in every reachable sink world, whatever was logged, no event id stands under two keys and every session row has its rider and its city |
| `SinkTables.RefusedIffBroken` | src/processors/pg_sink.py:447-489 | a batch without consumer errors is refused exactly when one of its messages breaks such a constraint on the tables the messages before it leave |
| `SinkProtocol.TablesAreDetermined` | src/processors/pg_sink.py:447-489 | two runs over one log with equal stored offsets have equal tables: neither batch boundaries nor partition interleaving show |
| `SinkProtocol.BatchRefines` | src/processors/pg_sink.py:447-489 | applying a delivered batch moves the folds to the new positions |
| `SinkGuarantees.ReplaysAreInvisible` | src/processors/pg_sink.py:247-288 | re-applying any already applied messages, in any order and number, is accepted and leaves tables and stored offsets unchanged |
| `SinkGuarantees.RederivationsConverge` | src/processors/pg_sink.py:255-271 | sessions of one ride built from prefixes of one log converge, whatever the arrival order: the columns the UPDATE lists to the longest prefix, the others to the first arrival |
| `SinkGuarantees.WholeRowConvergesIff` | src/processors/pg_sink.py:262-270 | the whole row equals the longest derivation exactly when the events behind the first arrival already held the middle lifecycle kinds of the longest prefix, the request's time and every leading field |
| `SinkGuarantees.AgreedRideConvergesIff` | src/processors/pg_sink.py:262-270 | for a ride whose events agree on ride-level fields that is a matter of presence: middle kinds, request time, driver and dropoff |
| `SinkGuarantees.ArrivalOrderShows` | src/processors/pg_sink.py:262-270 | a request and its match, derived before and after the match, leave different rows in the two arrival orders |
| `SinkGuarantees.SeqIsCount` | src/processors/session_builder.py:111 | `event_seq` counts the distinct slots, which is what makes richer mean longer |
| `PgSink.PgSink.StoredOffsets` | src/processors/pg_sink.py:393-404 | the stored offset of each partition, -1 where none is stored |
| `PgSink.PgSink.OnAssign` | src/processors/pg_sink.py:406-419 | seeks each partition to stored offset + 1, or to the beginning |
| `PgSink.PgSink.ProcessBatch` | src/processors/pg_sink.py:447-489 | rows and offsets change together: all of the batch when it commits, nothing when a consumer error, a constraint or a failed commit stops it |
| `PgSink.PgSink.UpsertOffsets` | src/processors/pg_sink.py:282-288 | the highest offset of the batch per partition, then GREATEST with the stored one |
| `PgSink.PgSink.InsertEvents` | src/processors/pg_sink.py:248-254 | events in order, an existing key kept, the batch refused when the event_id index is violated |
| `PgSink.PgSink.UpsertSessions` | src/processors/pg_sink.py:255-271 | sessions in order, listed columns updated only by a richer close |
| `PgSink.TopicByTopic` | src/processors/pg_sink.py:473-476 | writing a batch topic by topic equals writing it message by message |
| `EndToEnd.RowIsTheSession` | src/processors/pg_sink.py:255-271 | each raw.ride_sessions row equals the ride's single committed session in every column; once its partition is drained no committed session is missing |
| `EndToEnd.RowIsDerived` | src/processors/pg_sink.py:255-271 | such a row is the derivation of all the ride's decodable events up to its close tag |
| `EndToEnd.ConstraintsNeverFire` | src/processors/pg_sink.py:80-139 | for generator-built events and the sessionizer's sessions, neither the unique index on event_id nor a NOT NULL column ever refuses a delivered batch |
| `EndToEnd.DrainedIds` | src/processors/pg_sink.py:247-254 | after draining, the ids in raw.rides_events are the ids of the decodable events of the source topic |
| `LedgerGuarantees.DrainedIsLedger` | src/generator/producer.py:134-150 | after draining, raw.rides_events holds exactly the manifest's ids and those written uncorrupted whose acknowledgement did not come; it equals the manifest exactly when every such id is in the manifest too |
| `LedgerGuarantees.ReplayOnceIsEnough` | scripts/replay_dlq.py:69-90 | replaying the dead letters once or more leaves raw.rides_events the same |
| `LedgerGuarantees.ReplayClosesTheLoop` | scripts/replay_dlq.py:46-90 | once the sessionizer has committed the whole topic and its dead letters are repaired and replayed, the drained table holds the ids of all written sends, corrupted or not |
| `LedgerGuarantees.ReplayRepairs` | scripts/replay_dlq.py:46-48 | replaying the sessionizer's dead letters with the magic-byte repair brings back exactly the events corrupted on the wire |
| `Transport.RepairUndoesCorruption` | src/generator/producer.py:48-50 | for an event the codec fits, corrupt bytes never decode and the repair restores the event |
| `Transport.FramedCodecExists` | src/generator/producer.py:53-70 | whatever events are sent, some codec with the magic byte fits them all, so what is assumed of serialization can be met |
| `Transport.KafkaTransport.Send` | src/generator/producer.py:106-124 | one more record handed over, written or not, its report awaited; topic and corruption counter follow, manifest and acknowledgements do not change |
| `Transport.KafkaTransport.OnDelivery` | src/generator/producer.py:134-150 | the report of any earlier send, at any time and in any order: failed or acked, and the id in the manifest only when acked and not corrupt; manifest and counters stay those of the reports so far |
| `Transport.Replay` | scripts/replay_dlq.py:69-90 | seen, filtered and replayed add up; what is produced is the mended payload of each kept envelope, nothing on a dry run |
| `Events.IdIsKey` | src/generator/events.py:45 | an event id and the sink's key (ride, ordinal) determine each other |
| `Events.RideIdsAreUnique` | src/generator/rides.py:121 | two rides of one run never share an id |
| `Events.EventIdParses` | src/generator/events.py:45 | the ride id and the ordinal can be read back from an event id |
| `RideSimulator.RideSimulator.OwnershipIsExclusive` | src/generator/rides.py:199-277 | for any draws and any number of ticks, on the objects themselves: active rides never share a driver, and the en-route and on-trip drivers are exactly the active rides' drivers |
| `RideScene.DriversAreExclusive` | src/generator/drivers.py:84-114 | the same on values, with the status each ride calls for |
| `RideScene.ReleasedExactlyOnce` | src/generator/rides.py:273-277 | a ride that was assigned a driver and left the active set gave it back exactly once before the driver's next grant |
| `RideScene.NeverStuck` | src/generator/rides.py:187-296 | every active ride has a planned event that is legal from its machine state and not earlier than its last one |
| `RideScene.PathIsShort` | src/generator/state_machine.py:26-45 | a measure bounds what is to come: at most five events per ride, ordinals increasing, times not decreasing |
| `RideScene.LegalPathsAre` | src/generator/state_machine.py:26-69 | spelled out: the legal paths are exactly the beginnings of requested, matched, arrived, started, completed and those of at least one kind short of the last followed by cancelled, with times in order |
| `RideScene.EffectKeeps` | src/generator/rides.py:215-296 | each event the simulator fires (matched, abandoned, arrived, started, completed, cancelled) keeps ownership, legal histories and the grant ledger |
| `RideScene.TraceIsLegal` | src/generator/state_machine.py:60-69 | the events of every ride, active or gone, form a legal path with times in order |
| `GeneratorGuarantees.FoldIsStable` | src/generator/imperfections.py:48-81 | any emitted or held events of one ride meet the fold's hypotheses: identical duplicates and at most one terminal kind |
| `GeneratorGuarantees.GeneratedSessionsAreStable` | src/processors/session_builder.py:62-132 | so a generated ride derives one session however its events are duplicated, held back or reordered |
| `GeneratorGuarantees.EmittedWasMade` | src/generator/imperfections.py:48-117 | everything emitted or held is, corruption aside, an event the layer took in, with the id the sink keys on |
| `GeneratorGuarantees.OfflineIsNeverStored` | src/generator/drivers.py:140-144 | in every reachable sink world whose location partitions hold what the tick loop sent, no row of raw.driver_locations has status offline: the offline ping repeats the key of the idle ping before it |
| `GeneratorGuarantees.OfflineNeverDividesShifts` | dbt/models/intermediate/int_drivers__shifts.sql:23-29 | so on rows of that table a shift begins exactly at the first ping and after a gap of more than 30 minutes |
| `GeneratorGuarantees.MaskedOnPartition` | src/generator/drivers.py:140-144 | keying by driver keeps an offline row right behind the one it repeats on its partition |
| `RideSimulator.RideSimulator.OnTick` | src/generator/rides.py:91-96 | one tick never fails, keeps all of the above, extends each ride's history by exactly its events in the output, leaves nothing due behind, and keeps every completed ride billed once with what is billed either sent or queued; events are of version 2 from the configured age of the run on, and only those carry a promo code |
| `RideSimulator.RideSimulator.Progress` | src/generator/rides.py:199-210 | fires every due event of every active ride and drops the rides that ended |
| `RideSimulator.RideSimulator.FireDue` | src/generator/rides.py:203-207 | fires one ride's events until it leaves or none is due |
| `RideSimulator.RideSimulator.Fire` | src/generator/rides.py:215-260 | the state machine never refuses; the emitted event is the planned one; the ride continues with a later legal plan unless the event is terminal or the abandonment point; a completion charges the fare of its distance, duration and surge, queues one payment and leaves the driver at the dropoff |
| `RideSimulator.RideSimulator.AfterMatched` | src/generator/rides.py:262-271 | grants the nearest idle driver of the city, or a new one when none is idle, and plans the arrival after the travel time or, as far as its probability allows, a cancellation; gives the driver back when the ride stops here |
| `RideSimulator.RideSimulator.ReleaseDriver` | src/generator/rides.py:273-277 | returns the ride's driver to idle, at the given place if any, or does nothing without one |
| `RideSimulator.RideSimulator.AfterArrived` | src/generator/rides.py:279-283 | plans the start 10 to 90 seconds on or, as far as its probability allows, a cancellation not before the arrival |
| `RideSimulator.RideSimulator.AfterStarted` | src/generator/rides.py:285-296 | puts the driver on the trip and plans completion after the trip's duration, at least a minute, or, as far as its probability allows, a cancellation 10 to 80 percent into it |
| `RideSimulator.RideSimulator.Spawn` | src/generator/rides.py:107-116 | each whole unit of the carried demand becomes one ride, and the remainder below one is carried on |
| `RideSimulator.RideSimulator.CreateRide` | src/generator/rides.py:118-157 | a ride under an unused id, requested within the tick, with a legal event planned; to be abandoned or cancelled only as far as the configured probabilities allow |
| `RideSimulator.RideSimulator.QueuePayment` | src/generator/rides.py:305-324 | one payment for the ride's fare, due 5 to 90 seconds after completion, with a status and a method that a roll gives |
| `Rides.FareIs` | src/generator/rides.py:298-301 | 50.00 to start with, 15.00 a kilometre and 2.00 a minute, times the surge, without the part of a cent, and never negative |
| `Rides.PaymentShares` | src/generator/rides.py:307-310 | the shares of each payment status and method, as widths of the intervals of rolls that give them: 96, 3 and 1 percent; 55, 30 and 15 percent |
| `Rides.DriverNamesAreUnique` | src/generator/drivers.py:64 | two drivers never share an id, initial or added, whatever their cities and numbers |
| `Rides.LocationTellsPing` | src/generator/events.py:85-106 | a location row keeps time, position and city, says offline or idle exactly for those pings, and differs for any two different pings |
| `RideSimulator.RideSimulator.DuePayments` | src/generator/rides.py:326-331 | the due payments go out in queue order, the others stay |
| `Rides.ActiveRide.ScheduleAfterRequested` | src/generator/rides.py:187-193 | a match 3 to 240 seconds after the request or, as far as its probability allows, a cancellation within 600 |
| `Lifecycle.RideStateMachine.Advance` | src/generator/state_machine.py:60-69 | accepts exactly the legal edges; a refused one leaves the state alone; an accepted one decreases the measure |
| `Fleet.DriverFleet.Assign` | src/generator/drivers.py:84-98 | the nearest idle driver of the city, or a new one exactly when none is idle; put en route, for the distance at a speed of 15 to 50 km/h but at least 20 seconds |
| `Fleet.DriverFleet.RideStarted` | src/generator/drivers.py:100-104 | only the named driver changes, to on trip |
| `Fleet.DriverFleet.Release` | src/generator/drivers.py:106-114 | only the named driver changes, to idle, at the given place if any |
| `Fleet.DriverFleet.OnTick` | src/generator/drivers.py:127-145 | for every driver the state after and the exact ping times: a dark one stays dark and silent, any other pings its beats up to now, all of them unless it goes offline at one, which only an idle driver does and pings again; offline pings repeat the idle one |
| `Fleet.Driver.MaybeGoOffline` | src/generator/drivers.py:147-155 | only an idle driver, as far as the probability allows, for 2 minutes to an hour |
| `Fleet.Beat` | src/generator/drivers.py:131-144 | one driver's ping loop |
| `Fleet.BeatsAre` | src/generator/drivers.py:136-140 | the ping times of a tick start at the next one, are one interval apart and end with the last not after now |
| `Imperfections.Imperfector.Process` | src/generator/imperfections.py:48-81 | the event comes in as one variant in one bucket that some roll gives, which decides what goes out and what is held; conservation is kept: emitted plus held equals taken in plus one copy of each event in the duplicate bucket, as multisets up to the corruption flag; what goes out flagged is, in order, exactly the malformed bucket; locations and payments keep their order; identity when all rates are zero |
| `Imperfections.CopiesAreCounted` | src/generator/imperfections.py:62-70 | there are as many injected duplicates as the duplicate counter says, each of an event taken in whose bucket is the duplicate one |
| `Imperfections.Imperfector.Route` | src/generator/imperfections.py:55-81 | the bucket decides what goes out, what is held and until when |
| `Imperfections.RatesAreExact` | src/generator/imperfections.py:55-80 | for non-negative rates of sum at most one, the rolls that fall in a bucket are an interval as wide as its rate: the buckets are exclusive and the rates exact |
| `Imperfections.ChangedColumns` | src/generator/imperfections.py:89-110 | a nulled record lacks exactly its dropoff; a broken one has the coordinates 99.9 and 199.9 and minus the amount of its fare, and no other column changes |
| `Imperfections.Imperfector.MaybeBadData` | src/generator/imperfections.py:89-100 | the broken record and one more on the counter, or neither; only at a rate above 0, and always at a rate of 1 |
| `Imperfections.Imperfector.MaybeNullFields` | src/generator/imperfections.py:102-110 | the same for the nulled record, of a request only |
| `Imperfections.Imperfector.ReleaseDue` | src/generator/imperfections.py:114-117 | exactly the due events go out, in order; nothing is released before it is due and nothing due stays |
| `Holding.ReleasedOnTime` | src/generator/imperfections.py:114-117 | what is released had come due and what stays is later than now |
| `Holding.DueKeepsAll` | src/generator/imperfections.py:114-117 | releasing loses and invents no entry, as multisets |
| `Simulate.SimulateTicks` | src/generator/simulate.py:39-56 | over any number of ticks nothing fails; drivers are owned exclusively; every ride has a legal history of at most five events and, while active, a legal event ahead; completed rides are billed once; what the layer took in is event by event what the simulator emitted, and emitted plus held equals that plus one copy per duplicate counted; exactly the malformed bucket goes out corrupt; nothing was released early; with all rates zero the stream is the simulator's |
| `Simulate.Tick` | src/generator/simulate.py:50-56 | with all rates zero a tick's batch is exactly the simulator's output |
| `LakehouseProtocol.AtLeastOnce` | src/sinks/iceberg_sink.py:267-305 | every decodable event below the committed offset is in the table; every row is an event of the log as it was logged, but for the promo code that only a version 1 event may lack; the promo column is there only if a version 2 event was logged and whenever the table holds one; no log entry has more copies than one plus the interruptions |
| `LakehouseProtocol.DeduplicationIsExact` | src/sinks/iceberg_sink.py:286-305 | once every decodable record is committed, the distinct ids in the table are the ids in the log |
| `LakehouseBounds.CopiesInRun` | src/sinks/iceberg_sink.py:267-305 | over a run the copies of a record are at most one plus the flushes that died between append and commit plus the assignments made while events were buffered |
| `LakehouseBounds.CrashesBoundCopies` | src/sinks/iceberg_sink.py:286-305 | when partitions are assigned only to an empty buffer, at most one plus the processes that died between append and commit |
| `LakehouseBounds.ReassignmentsRepeatRows` | src/sinks/iceberg_sink.py:243-305 | repeats need no crash and the bound is reached: for every n a lake reached without any death, with n interruptions and n + 1 copies |
| `LakehouseBounds.CrashesRepeatRows` | src/sinks/iceberg_sink.py:286-305 | the crash bound is reached as well: n deaths between append and commit and n + 1 copies |
| `LakehouseProtocol.StepKeeps` | src/sinks/iceberg_sink.py:267-305 | produce, assign, crash, ingest and each way a flush can end keep the counting invariant |
| `Lakehouse.IcebergSink.Ingest` | src/sinks/iceberg_sink.py:267-277 | buffers the decodable events in order, counts the poison, stops at a consumer error |
| `Lakehouse.IcebergSink.Flush` | src/sinks/iceberg_sink.py:286-305 | schema evolution exactly on a version 2 event in the buffer, append, commit, with the table and offsets after each point of failure; a version 2 event keeps its promo code |
| `Lakehouse.VersionTwoIsKept` | src/sinks/iceberg_sink.py:115-148 | once `should_evolve` is false, shaping a batch drops no promo code of a version 2 event |
| `Quantiles.QuantileBound` | postgres/init/02_flink_tables.sql:47-68 | the first crossing bucket is the bucket of the exact quantile, a time with fewer than q of the times below it and at least q of them not above it: below the open-ended bucket the report exceeds it by more than 0 and at most 5 seconds; in that bucket the report is 305, exactly when the exact value is 300 or more |
| `Quantiles.ExactIsQuantile` | postgres/init/02_flink_tables.sql:59-64 | the k-th smallest time, k the rank, is the one and only time with fewer than q of the times below it and at least q not above it |
| `Quantiles.CumulativeCounts` | flink/sql/02_city_metrics.sql:41-50 | the cumulative sum up to a bucket counts the match times in buckets up to it, and a bucket has a row exactly when some time falls in it |
| `Quantiles.RankInSorted` | postgres/init/02_flink_tables.sql:59-64 | what makes the k-th of the sorted times the nearest-rank statistic |
| `Shifts.ShiftsAreMaximalRuns` | dbt/models/intermediate/int_drivers__shifts.sql:8-65 | numbering by the running sum of boundary flags yields exactly the maximal runs, the only such segmentation: within a run at most 30 minutes between pings and none but the last offline, between neighbours more than 30 minutes or an offline end; a shift's distance is the sum of its internal steps |
| `Shifts.SegmentsUnique` | dbt/models/intermediate/int_drivers__shifts.sql:23-54 | any partition into such runs is the recursive splitter's |
| `Shifts.OnlyGapsDivide` | dbt/models/intermediate/int_drivers__shifts.sql:23-29 | without a stored offline ping only gaps of more than 30 minutes divide shifts |
| `FactTable.IncrementalIsFullRefresh` | dbt/models/marts/fct_rides.sql:19-63 | any sequence of merges equals a full rebuild while every row added or changed lies within 60 minutes of the table's maximum |
| `FactTable.MergeIsRefreshIff` | dbt/models/marts/fct_rides.sql:57-63 | one merge equals the rebuild exactly in that case |
| `FactTable.SkippedForGood` | dbt/models/marts/fct_rides.sql:10-23 | a ride that arrives further behind is skipped by every later merge while requested_at is stable |
| `FactTable.BatchesKeepRequested` | src/processors/pg_sink.py:262-270 | no batch of the sink moves the requested_ts of a ride's row, so its place in the lookback is fixed by its first session |
| `FactTable.Fact.MaxRequestedAt` | dbt/models/marts/fct_rides.sql:57-62 | the maximum, or 1900-01-01 for an empty table |
| `FactTable.Fact.RunIncremental` | dbt/models/marts/fct_rides.sql:57-63 | the merge of the rows within the lookback |

## Left out

- Kafka, SQLite, Postgres and Iceberg internals: an atomic broker transaction, a durable atomic batch
  write, an atomic database transaction and an atomic table append are primitive steps.
- Avro, JSON Schema and the registry: a message decodes to an event of one of the six known types or is
  poison; `Transport.Codec` assumes only that the events sent encode to bytes that start with the magic byte
  and decode back, and that bytes with another first byte do not decode. Base64 in the envelope is taken as lossless.
- Several live instances, zombie processes, hand-deleted state files, log retention: the code relies on
  one live owner and on broker fencing.
- Keys and partitions: `Setting.home`, `Homes` and `OnPartition` take the keyed partitioner as any
  function of the key; `_PartitionState` objects are a map from partition to watermark.
- Iteration order over dictionaries (rides to close, drivers to ping, rides to progress): the methods
  take any order, so the order of sessions within a transaction is not modelled; outputs are
  compared per partition or per ride.
- Floating point: coordinates, fares, durations and draws are reals; times are integer milliseconds.
- Draws: what a roll decides is any outcome its probability allows; how often, beyond `RatesAreExact` and `PaymentShares`,
  is not modelled.
- Distances and movement: `Haversine` and `Distance` are any functions of their points, and where a moving
  driver ends up is not modelled; demand curves are any function of the instant.
- `Driver.ride_id` is never set by the source and has no counterpart; initial drivers per city are a parameter.
- The generator's configuration: the tick and the ping interval must be positive, as the source needs to terminate;
  the demand per tick is any function of the instant, and the payload version switches at an elapsed time in
  milliseconds.
- GeneratorGuarantees.OfflineIsNeverStored: the location partitions are taken to hold every location sent,
  in order; a location lost on the way is not modelled.
- LakehouseProtocol.AtLeastOnce: one message is ingested per step, so a longer call is several steps; records
  carry their coordinates, which the table does not store.
- PgSink.PgSink.ProcessBatch: raw.rides_events rows keep the event, partition and offset; the conversion to
  timestamps and the `ingested_at` and `updated_at` columns are not modelled; one consumer group.
- Delivery of the dead letters of the Postgres and Iceberg sinks: those producers are outside the data
  transaction, so nothing is claimed for them.
- The other columns of a shift (averages, shares, counts) and of the ride fact: one aggregate or cast each.
- The payment ledger, the `late.events` side output, Flink's join and session operators, dbt staging and
  snapshot models, quality suites, metrics, logging, configuration, dashboards and scripts for resets.
