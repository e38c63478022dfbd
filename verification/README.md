# Verification of the transit event engine

This project models the event engine of tpm-go in Dafny 4.11 and proves what it does over whole runs.
`dafny verify dfyconfig.toml` checks all of it.

GTFS Realtime snapshots become vehicle positions (`VehiclePositions.dfy`). A per-vehicle state machine turns
consecutive positions into arrivals and departures (`StopEvents.dfy`). Three more processors turn those into dwell
times, headways and travel times (`DwellEvents.dfy`, `HeadwayEvents.dfy`, `TravelTimeEvents.dfy`). All four keep their
state in a key/value store whose entries expire (`StateStore.dfy`), under keys joined with `-` (`Keys.dfy`). Events go
to a batching database sink (`DatabaseSink.dfy`, `SqlInserts.dfy`, read back by `SqlReading.dfy`) and to a broadcast server (`EventServer.dfy`).

## How the model is built

- The store, the five processors, the sink, the subscribers and the server are classes with the source's fields. Each
  method is proved against a specification function, and the laws are lemmas about those functions.
- `Engine.dfy` describes runs: a sequence of calls, each one `process` call of one of the four stateful processors or
  one sweep of the store, in any interleaving, at any clock readings, all on one shared store. `Trace` lists what each
  call sent. `Deployment.SharedStoreDeployment.Drive` proves that the four processor objects, wired to one store
  object, send exactly that.
- `Engine.Projection` is the central result: whatever calls are watched, they are served as if the other calls and all
  sweeps had not happened, provided no unwatched call uses a watched key. Privacy of a shared store, independence of
  interleaving and unobservable sweeps are instances of it.
- Each processor then gets a store-free account: `StopLaws.Watched` for a vehicle's stop events, `DwellLaws.Pairs` for
  dwells, `ChainLaws.Chain` and `ChainLaws.Hops` for headways and travel times. The laws about visits, pairs, chains
  and sums are proved on those accounts and hold of every run through `StopLaws.VehicleIsWatchedAlone`,
  `DwellLaws.DwellEndToEnd` and `ChainLaws.ChainOnSharedStore`.
- The contracts of the processors write keys, seconds and nanoseconds out, beside the functions that the laws use. What
  they send for two events that meet in the store is stated in the events' own fields (`StoredPairs.dfy`). A database
  reader (`SqlReading.InsertionOf`) says which rows a statement inserts, and the sink is proved against it.
- `DwellPipeline.Pipeline` wires the processors: each stop event is handed on before the next sighting. The results
  about dwells, headways and travel times hold of it, down to positions out of feeds (`DwellPipeline.FeedsToDwells`,
  `ChainPipeline.FeedsToHops`, `ChainPipeline.FeedsToTravelTimes`).

Conventions: the clock is an `int` of nanoseconds passed to each operation; event times are whole seconds, `None` for
an absent protobuf timestamp; a channel is a sequence; a nil `*StopEvent` is `NilStop` on the way out and `None` on the
way in. `int32(seconds)` is modelled with its range: a difference that does not fit becomes the value amd64 produces.
Failed type assertions on store values are modelled, because a shared store can bring them about.

## Where the code and its documents or comments disagree

- The table in `docs/processors/stop-event-processor.md:28-34` leaves out INCOMING_AT to IN_TRANSIT_TO with a changed
  stop and STOPPED_AT to STOPPED_AT with a changed stop, and says that an inferred arrival carries the previous
  position's attributes. The code sends events in both cases, and takes every attribute but the stop id from the
  current position (`processors/transit/stop_events/stop_event.go:170-190`). The model follows the code.
- `docs/processors/headway-event-processor.md:20-26` and `docs/processors/travel-time-event-processor.md:20-26` do not
  say that non-positive differences are skipped, nor that a skipped headway keeps the old state while a skipped travel
  time replaces it. The model follows the code.
- `sinks/db_sink.go:284-289` says that an unset timestamp becomes NULL. A nil `*Timestamp` passed as an interface is
  not a nil interface, so it is written as the epoch; `SqlInserts.OnlyZeroTimeIsNull` says exactly what becomes NULL.
- Collapsing repeated arrivals is not always harmless: a repeat of a stop that comes after the stored arrival has
  expired replaces it. `ChainLaws.ChainCollapses` proves that the stored arrivals are the collapsed ones if and only if
  no arrival comes more than an hour after the first of its run of equal stops, and
  `ChainLaws.RepeatedArrivalsDoNotCount` that the travel times sent are those of the collapsed arrivals if and only if
  no hop is sent from an arrival that the collapse drops (`ChainLaws.Extra`). `ChainLaws.LateRepeatIsLost` gives the
  arrivals for which it is, and `LateRepeats.LateRepeatIsSent` a run out of feeds that has them.
- Arrivals and departures do not always alternate: a step from STOPPED_AT to INCOMING_AT sends nothing.
  `VisitLaws.VisitsAreBracketed` proves that they do if and only if nothing is sent after such a step that comes after
  the vehicle's first event; `LateRepeats.LateEventsDoNotAlternate` shows a run where they do not.
- A dwell can span from an arrival that is not the vehicle's latest stop event. The position processor also passes on
  UNKNOWN, after which a vehicle can stand at a stop without an arrival having been sent for it; if an older arrival
  there is still stored, the departure pairs with that one. `DwellLaws.PairsAreAdjacentExactly` proves that this stale
  stop (`DwellLaws.NoStaleStop`) is all that can go wrong for a vehicle that keeps its service. Without a step from
  UNKNOWN to STOPPED_AT within the hour there is none (`DwellLaws.AnnouncedStopsAreNotStale`).
  `StaleStops.UnknownStatusMispairs` gives a run out of feeds in which such a dwell is sent.
- A shared store is private to each processor in every schedule if and only if no two processors use the same key
  (`KeyCollisions.SharingIsPrivateExactly`). Hyphen-free ids suffice (`Engine.HyphenFreeIdsAreFaithful`);
  `KeyCollisions.CollisionLosesHeadway` shows what an id with hyphens can do.

## Model

| member | source | states |
|---|---|---|
| `StateStore.InMemoryStateStore.constructor` | statestore/in_memory_store.go:23-34 | a zero expiry means a default ttl of one hour |
| `StateStore.InMemoryStateStore.Get` | statestore/in_memory_store.go:36-49 | an entry is found up to and including its expiration instant; otherwise the caller's blank message comes back, not found |
| `StateStore.InMemoryStateStore.Set` | statestore/in_memory_store.go:51-63 | only this key changes, to expire after the given ttl or, for a zero ttl, the default |
| `StateStore.InMemoryStateStore.Delete` | statestore/in_memory_store.go:65-69 | only this key goes |
| `StateStore.InMemoryStateStore.Expire` | statestore/in_memory_store.go:86-94 | in whatever order the map is ranged over, a sweep removes exactly the entries whose expiration is past |
| `StateStore.GetAnswersFromHistory` | statestore/in_memory_store.go:36-99 | after any requests in time order, a Get finds a message if and only if the last write of its key set that message and its effective ttl has not run out |
| `StateStore.SweepsAreUnobservable` | statestore/in_memory_store.go:71-99 | schedules that differ only in their sweeps, as after Close, answer every Get alike |
| `Keys.SplitUndoesJoin` | processors/transit/dwell_events/dwell_event_processor.go:35-37 | a key splits back into its fields if and only if no field contains a hyphen |
| `Keys.JoinIsInjective` | processors/transit/headway_events/headway_event_processor.go:22-24 | equal keys of hyphen-free fields come from equal fields, of equal number |
| `Keys.JoinTellsField` | processors/transit/dwell_events/dwell_event_processor.go:25-37 | keys that differ in one field differ, hyphens or not |
| `StopEvents.StopEventProcessor.Process` | processors/transit/stop_events/stop_event.go:101-191 | the position is stored for 3600 seconds under its vehicle id, and status by status what is sent after the visible previous position; an empty vehicle id changes nothing |
| `StopEvents.StopEventProcessor.Receive` | processors/transit/stop_events/stop_event.go:200-219 | a decoded position and a byte payload that unmarshals to one are processed alike, anything else is skipped |
| `VisitLaws.SentTable` | processors/transit/stop_events/stop_event.go:164-190 | the complete table of what two consecutive sightings send, with the stop each event is at |
| `StopEvents.StopEventCopiesPosition` | processors/transit/stop_events/stop_event.go:72-98 | nil exactly without a vehicle or a stop, and otherwise the position with the stop replaced and the fields that positions do not fill left empty |
| `DwellEvents.DwellSpansTheStay` | processors/transit/dwell_events/dwell_event_processor.go:110-138 | a dwell event is the departure's in everything but the status, and its times and seconds agree |
| `HeadwayEvents.HeadwayCopiesDeparture` | processors/transit/headway_events/headway_event_processor.go:123-138 | a headway event is the following departure's in everything but the status |
| `TravelTimeEvents.TravelSpansTheHop` | processors/transit/travel_time_events/travel_time_event_processor.go:121-137 | a travel time leads from the stop and time of one arrival to those of the next, and its times and seconds agree |
| `DwellEvents.DwellEventProcessor.Process` | processors/transit/dwell_events/dwell_event_processor.go:92-144 | by agency-route-stop-direction-vehicle an arrival is stored for 3600 seconds; a departure consumes what it finds and, if that is an arrival, sends a dwell of the difference if it is from 0 to 2147483647 seconds |
| `DwellEvents.DwellKeysTell` | processors/transit/dwell_events/dwell_event_processor.go:25-37 | hyphen-free events share a key if and only if agency, route, stop, direction and vehicle are equal |
| `HeadwayEvents.HeadwayEventProcessor.Process` | processors/transit/headway_events/headway_event_processor.go:77-144 | by route-direction-stop a departure is stored for 3600 seconds if nothing usable is stored or if it is another vehicle's from 1 to 2147483647 seconds later, and only then, in the second case with a headway of that difference |
| `HeadwayEvents.HeadwayKeysTell` | processors/transit/headway_events/headway_event_processor.go:16-24 | hyphen-free departures share a key if and only if route, direction and stop are equal |
| `TravelTimeEvents.TravelTimeEventProcessor.Process` | processors/transit/travel_time_events/travel_time_event_processor.go:80-148 | by route-direction-vehicle-trip an arrival replaces the stored one for 3600 seconds unless it is at the same stop, with a travel time if the difference is from 1 to 2147483647 seconds |
| `TravelTimeEvents.TripKeysTell` | processors/transit/travel_time_events/travel_time_event_processor.go:16-26 | hyphen-free arrivals share a key if and only if route, direction, vehicle and trip are equal |
| `Events.ElapsedIsTheDifference` | processors/transit/dwell_events/dwell_event_processor.go:113-120 | seconds are end minus start for every difference from -2147483648 to 2147483647, an absent timestamp being second 0 |
| `StoredPairs.StaySendsDwell` | processors/transit/dwell_events/dwell_event_processor.go:97-143 | after an arrival and any calls that leave its key alone, a departure of the same ids sends one dwell of exactly d seconds if it comes within 3600 seconds of the clock and 0 <= d <= 2147483647, and nothing otherwise |
| `StoredPairs.FollowerSendsHeadway` | processors/transit/headway_events/headway_event_processor.go:92-143 | after a stored departure, one of the same route, direction and stop sends the headway of exactly d seconds if it is another vehicle's, within 3600 seconds of the clock and 0 < d <= 2147483647, and nothing otherwise |
| `StoredPairs.NextStopSendsTravelTime` | processors/transit/travel_time_events/travel_time_event_processor.go:86-147 | after a stored arrival, one of the same trip sends the travel time of exactly d seconds if it is at another stop, within 3600 seconds of the clock and 0 < d <= 2147483647, and nothing otherwise |
| `Deployment.SharedStoreDeployment.Serve` | pipelines/pipeline.go:42-51 | one call on the wired objects changes the shared store and one processor's output as the run specification says |
| `Deployment.SharedStoreDeployment.Drive` | processors/processor.go:21-37 | driven by any schedule, the four objects on one store leave it and send what Trace says |
| `Engine.Projection` | statestore/in_memory_store.go:36-99 | watched calls are served as if other calls and sweeps had not happened, if no other call uses their keys |
| `Engine.HyphenFreeIdsAreFaithful` | processors/transit/travel_time_events/travel_time_event_processor.go:24-26 | with hyphen-free ids, equal keys stand for the same processor and the same fields |
| `Engine.SharedStoreIsPrivate` | pipelines/pipeline.go:42-51 | on a shared store on which no two processors use the same key, each of the four sends exactly what it would send alone on its own store |
| `Engine.KeysAreIndependent` | processors/transit/headway_events/headway_event_processor.go:77-144 | what is sent at a key equals the run of the calls at that key alone, for every interleaving, whatever the ids |
| `Engine.IgnoredCallIsRemovable` | processors/transit/headway_events/headway_event_processor.go:105-121 | a call that sends nothing and keeps its entry can be left out of any run |
| `KeyCollisions.SharingIsPrivateExactly` | pipelines/pipeline.go:42-51 | for any set of processors and key fields: every schedule about them is private to each processor if and only if no two processors share a key |
| `KeyCollisions.BetweenUndoesOpening` | processors/transit/dwell_events/dwell_event_processor.go:98-140 | for each of the six pairs of processors with a shared key, a call of one between two of the other changes what the second sends: a position hides, a dwell departure erases and a headway departure replaces the stored event |
| `KeyCollisions.CollisionLosesHeadway` | processors/transit/headway_events/headway_event_processor.go:92-97 | a vehicle id that spells a headway key loses the next headway on a shared store, and has a hyphen |
| `StopLaws.HyphenFreeVehicleOwnsItsKey` | processors/transit/stop_events/stop_event.go:134 | a hyphen-free vehicle id is never another processor's key, whatever the other ids |
| `StopLaws.VehicleIsWatchedAlone` | processors/transit/stop_events/stop_event.go:123-190 | in every run a vehicle's stop events are those of its own consecutive sightings no more than an hour apart |
| `VisitLaws.VisitsBalance` | processors/transit/stop_events/stop_event.go:165-190 | arrivals minus departures equals standing now minus standing first, plus silent departures minus silent arrivals, with or without expiry |
| `VisitLaws.RunBalance` | processors/transit/stop_events/stop_event.go:123-190 | the accounting law for each vehicle in every run on a shared store |
| `VisitLaws.DeparturesAreMatched` | processors/transit/stop_events/stop_event.go:170-190 | without expiry and with declared statuses, each departure but an opening one directly follows the arrival at its stop, so no two departures are adjacent |
| `VisitLaws.VisitsAreBracketed` | processors/transit/stop_events/stop_event.go:170-190 | moreover arrivals and departures strictly alternate if and only if nothing is sent once the vehicle has gone from standing straight to approaching after its first event, and then the last event tells whether it stands or slipped away |
| `VisitLaws.RunIsBracketed` | processors/transit/stop_events/stop_event.go:123-190 | both for each vehicle in every run on a shared store |
| `VisitLaws.RepeatsAreUnobservable` | processors/transit/stop_events/stop_event.go:164-168 | a repeat of a vehicle's latest status and stop, inserted anywhere, changes no stop event, if and only if it is not what keeps the vehicle in sight for a next sighting that sends one |
| `VisitLaws.RunRepeatsAreUnobservable` | processors/transit/stop_events/stop_event.go:134-168 | the same if and only if for that vehicle in every run on a shared store, and for any other vehicle no change at all |
| `VisitLaws.NoNilStopEvents` | processors/transit/stop_events/stop_event.go:72-99 | in every run whose positions name a stop, every stored position does too and is stored under its own vehicle's non-empty id, and no nil stop event is sent |
| `VehiclePositions.VehiclePositionEventProcessor.Process` | processors/transit/vehicle_position_events/vehicle_position_event_processor.go:59-109 | one position, in feed order, for each entity with a vehicle and a stop id |
| `VehiclePositions.PositionCopiesVehicle` | processors/transit/vehicle_position_events/vehicle_position_event_processor.go:68-106 | field by field what a position takes from its vehicle: ids with the trip id for a missing vehicle id, direction as its decimal numeral, sequence and timestamp as the signed number of the same bits, and the status by its number |
| `VehiclePositions.EntityGivesItsPosition` | processors/transit/vehicle_position_events/vehicle_position_event_processor.go:62-107 | each entity in turn adds its position, or none without a vehicle or stop id, and nothing else is sent |
| `VehiclePositions.LocatedAreTheNamedStops` | processors/transit/vehicle_position_events/vehicle_position_event_processor.go:62-85 | a vehicle yields a position if and only if it is in the feed and names a stop |
| `VehiclePositions.PositionsAreNamed` | processors/transit/vehicle_position_events/vehicle_position_event_processor.go:68-106 | every position names a stop, has a hyphen-free direction, comes from a vehicle of the feed, and is UNKNOWN only for an undeclared status number |
| `VehiclePositions.NoNilFromFeeds` | processors/transit/vehicle_position_events/vehicle_position_event_processor.go:80-106 | composed with any feeds, the stop processor never sends a nil event, synthesised ones included |
| `VehiclePositions.SecondPollSendsNothing` | processors/transit/vehicle_position_events/vehicle_position_event_processor.go:62-107 | polling an unchanged feed again sends no stop event, whatever the store held and whatever the clock says |
| `Decimal.ParseUndoesFormat` | processors/transit/vehicle_position_events/vehicle_position_event_processor.go:99 | a printed number reads back as itself |
| `DwellLaws.DwellPairsOffline` | processors/transit/dwell_events/dwell_event_processor.go:92-144 | a departure sends a dwell if and only if the latest arrival or departure at its key is an arrival set at most an hour before with a non-negative difference, and then that pair |
| `DwellLaws.PairingIsOneToOne` | processors/transit/dwell_events/dwell_event_processor.go:116-140 | each arrival and each departure is used in at most one dwell event |
| `DwellLaws.AdjacentStep` | processors/transit/stop_events/stop_event.go:164-190 | one more sighting never makes a departure pair past its neighbour, and keeps that so for the next one if and only if it is not an unannounced stop with an older arrival pending |
| `DwellLaws.PairsAreAdjacentExactly` | processors/transit/stop_events/stop_event.go:134-190 | a vehicle makes no stale stop if and only if, however any beginning of its run goes on, departures pair only with the event directly before them, even across expiry |
| `DwellLaws.WatchedPairsAreAdjacent` | processors/transit/stop_events/stop_event.go:134-190 | without a stale stop, among one vehicle's stop events a departure can only pair with the event directly before it |
| `DwellLaws.AnnouncedStopsAreNotStale` | processors/transit/stop_events/stop_event.go:170-182 | without a step from UNKNOWN to standing within the hour there is no stale stop |
| `DwellLaws.StaysAreSent` | processors/transit/dwell_events/dwell_event_processor.go:92-144 | handed one vehicle's stop events, the processor sends exactly the dwells of neighbouring arrival and departure at a stop within the hour and with a non-negative difference, if and only if departures pair with their neighbours alone |
| `DwellLaws.DwellEndToEnd` | processors/transit/dwell_events/dwell_event_processor.go:97-143 | in every connected run on a shared, swept store, what is sent for a vehicle are exactly its stays from one stop event to the next if and only if its pairs are adjacent, and so whenever it makes no stale stop |
| `DwellLaws.DwellsTelescope` | processors/transit/dwell_events/dwell_event_processor.go:110-140 | where the stays are sent, dwell seconds and the time between other neighbouring events together span the events, whatever the order of timestamps |
| `DwellLaws.TotalDwellIsBounded` | processors/transit/dwell_events/dwell_event_processor.go:110-140 | without a stale stop and with non-decreasing timestamps, a vehicle's dwell seconds sum to at most the time between its first and last sighting |
| `DwellPipeline.PipelineConnects` | processors/processor.go:21-37 | handing each event on before the next sighting gives a connected run, if nothing else uses the vehicle's keys |
| `DwellPipeline.PlainPipelineConnects` | processors/transit/dwell_events/dwell_event_processor.go:35-37 | with hyphen-free ids the pipeline is connected for every vehicle |
| `DwellPipeline.FeedsToDwells` | processors/transit/vehicle_position_events/vehicle_position_event_processor.go:62-107 | from positions out of feeds with hyphen-free ids to dwells: exactly the stays of a vehicle are sent if the feeds use the declared status numbers, or without a stale stop |
| `StaleStops.UnknownStatusMispairs` | processors/transit/vehicle_position_events/vehicle_position_event_processor.go:68-106 | a run out of feeds, with one undeclared status number, in which the dwell sent for a departure is from an arrival before the latest one |
| `ChainLaws.SentAreHops` | processors/transit/headway_events/headway_event_processor.go:77-144 | at one key, what is sent are the hops along the chain of stored events, and the store holds the chain's end |
| `ChainLaws.ChainOnSharedStore` | processors/transit/travel_time_events/travel_time_event_processor.go:80-148 | the same for the calls at a key of any run on a shared store |
| `ChainLaws.GreedyIsUnique` | processors/transit/headway_events/headway_event_processor.go:99-141 | the stored events are the one greedy subsequence: the first, then always the next that may succeed the one before |
| `ChainLaws.HopsTelescope` | processors/transit/travel_time_events/travel_time_event_processor.go:106-141 | measured and unmeasured seconds together span the chain, whatever the order of timestamps and with expiry |
| `ChainLaws.HeadwaysAlternate` | processors/transit/headway_events/headway_event_processor.go:105-143 | without expiry each headway leads with the vehicle that followed in the one before, is another vehicle's, positive and exact |
| `ChainLaws.HeadwaysSum` | processors/transit/headway_events/headway_event_processor.go:110-143 | without expiry the headways sent at a key sum to last stored minus first departure time |
| `ChainLaws.RejectedDepartureIsRemovable` | processors/transit/headway_events/headway_event_processor.go:105-121 | leaving out a same-vehicle or late departure changes nothing sent at any key |
| `ChainLaws.ChainCollapses` | processors/transit/travel_time_events/travel_time_event_processor.go:98-147 | the chain is the arrivals with runs of equal stops collapsed to their first, if and only if no arrival comes over an hour after the first of its run; stale repeats are what it is longer by |
| `ChainLaws.RepeatedArrivalsDoNotCount` | processors/transit/travel_time_events/travel_time_event_processor.go:98-147 | in time order, what is sent equals what the collapsed arrivals send if and only if no hop is sent from an arrival that the collapse drops |
| `ChainLaws.ExtrasAreCounted` | processors/transit/travel_time_events/travel_time_event_processor.go:98-147 | in time order, the hops of the chain outnumber those of the collapsed arrivals by exactly the hops from dropped arrivals |
| `ChainLaws.StaleRepeatCounts` | processors/transit/travel_time_events/travel_time_event_processor.go:98-147 | an arrival at another stop sends the hop from the arrival held, and with repeats collapsed the hop from the run's first, which is lost if the two differ |
| `ChainLaws.LateRepeatIsLost` | processors/transit/travel_time_events/travel_time_event_processor.go:98-147 | an arrival, a repeat over an hour later and an arrival elsewhere within the hour after: the travel time from the repeat is sent, and with repeats collapsed nothing is |
| `LateRepeats.LateRepeatIsSent` | processors/transit/vehicle_position_events/vehicle_position_event_processor.go:68-106 | such arrivals come out of a run of feeds with declared statuses in which the vehicle is never an hour out of sight |
| `LateRepeats.LateEventsDoNotAlternate` | processors/transit/stop_events/stop_event.go:170-190 | in that run the vehicle slips from its stop unseen and its arrivals and departures do not alternate |
| `ChainPipeline.PipelineSendsHops` | processors/processor.go:21-37 | at a headway or trip key that no other processor uses, the pipeline sends the hops of the chain of the departures or arrivals that the stop processor sent for the key, and their seconds with the unmeasured ones span it |
| `ChainPipeline.FeedsToHops` | processors/transit/headway_events/headway_event_processor.go:77-144 | the same from positions out of feeds with hyphen-free ids, at every headway and every trip key |
| `ChainPipeline.FeedsToTravelTimes` | processors/transit/travel_time_events/travel_time_event_processor.go:80-148 | from feeds, the travel times of a trip are the hops along the arrivals of its vehicle alone, which follow from that vehicle's own sightings |
| `ChainLaws.TravelTimesSum` | processors/transit/travel_time_events/travel_time_event_processor.go:106-141 | without expiry and with non-decreasing times in 32-bit range, travel seconds at a key sum to last stored minus first arrival time |
| `DatabaseSink.Sink.constructor` | sinks/db_sink.go:51-54 | a non-positive batch size means 100 |
| `DatabaseSink.Sink.Flush` | sinks/db_sink.go:112-153 | the batch's statements are executed, in order, on top of those before |
| `DatabaseSink.FlushInserts` | sinks/db_sink.go:133-152 | those statements, read as a database reads them, insert each event of a table as one row of that table, in order and nothing else, with one statement for each table with events and none for the others, stop before dwell before travel before headway |
| `DatabaseSink.PartOfOne` | sinks/db_sink.go:118-131 | which events go to which of the four tables, and that positions go to none |
| `DatabaseSink.Partition` | sinks/db_sink.go:118-131 | the batch's events by table, in order |
| `DatabaseSink.FlushPartitions` | sinks/db_sink.go:118-131 | each occurrence of an event is in exactly one part or is unsupported |
| `DatabaseSink.PartKeepsOrder` | sinks/db_sink.go:118-131 | partitioning keeps the order of the batch |
| `DatabaseSink.SignalsFlush` | sinks/db_sink.go:82-108 | signal by signal what is flushed, what stays in the buffer and whether the loop returns |
| `DatabaseSink.Sink.Select` | sinks/db_sink.go:82-108 | one round of the select flushes, fills or returns as React says, and runs the flushed batch's statements |
| `DatabaseSink.Sink.DoSink` | sinks/db_sink.go:75-110 | for any signals, what was executed inserts into each table exactly the rows of the flushed events for it, in order, and flushed and left over together are the accepted events |
| `DatabaseSink.NothingIsLostOrReordered` | sinks/db_sink.go:81-109 | flushed batches and buffer together are exactly the accepted events in order |
| `DatabaseSink.BatchesAreBounded` | sinks/db_sink.go:81-109 | every flush has 1 to max events and the buffer stays below max |
| `DatabaseSink.BufferIsTheRemainder` | sinks/db_sink.go:89-107 | the buffer is what full batches leave over of the events since the last tick |
| `DatabaseSink.ShutdownLeaves` | sinks/db_sink.go:83-97 | cancellation leaves nothing unflushed, closing the channel leaves exactly the buffer |
| `SqlInserts.OnlyZeroTimeIsNull` | sinks/db_sink.go:284-294 | a timestamp becomes NULL if and only if it is present and at the zero time; an absent one becomes the epoch |
| `SqlInserts.RowFollowsColumns` | sinks/db_sink.go:173-269 | each value of a row stands in the column that names it, for all four tables |
| `SqlInserts.FlattenAt` | sinks/db_sink.go:181-192 | row i, column j of a batch is argument i * nCols + j |
| `SqlInserts.BuildInsert` | sinks/db_sink.go:155-171 | the statement text for the table, its columns and the rows of placeholders |
| `SqlInserts.Insert` | sinks/db_sink.go:205-220 | the statement with its text and the flattened rows |
| `SqlReading.InsertReadsBack` | sinks/db_sink.go:155-171 | the text reads back as the table, the columns and rows of the placeholders 1 to nRows * nCols, each once and in order |
| `SqlReading.TwoRowsOfTwoColumns` | sinks/db_sink.go:155-171 | the text for two rows of two columns, letter by letter |
| `SqlReading.PlaceholderNamesItsValue` | sinks/db_sink.go:155-192 | the placeholder at row i, column j has number i * n + j + 1 and names the argument that is the value there |
| `SqlReading.InsertInsertsRows` | sinks/db_sink.go:173-273 | read back, a statement of the sink inserts into its table and columns exactly the rows of its events, in order |
| `SqlReading.EventGoesToItsTable` | sinks/db_sink.go:173-273 | the name of the table that each kind of event goes to |
| `SqlReading.RowHoldsAttributes` | sinks/db_sink.go:182-191 | the first fifteen columns, by name, and the attributes of the event that they hold, with statuses as the numbers 0 to 3 |
| `SqlReading.RowHoldsMetrics` | sinks/db_sink.go:194-269 | the remaining columns, by name, and what they hold for each kind of event, with the type names spelled out |
| `EventServer.Subscriber.Accepts` | event_server/event_server.go:108-119 | whatever the order of the keys, an event matches if and only if it has every value asked for |
| `EventServer.Subscriber.TrySend` | event_server/event_server.go:120-127 | a send on an open channel queues the event if there are fewer than 16, and drops it otherwise |
| `EventServer.Server.Subscribe` | event_server/event_server.go:85-91 | a new open subscriber with an empty queue is registered |
| `EventServer.Server.Unsubscribe` | event_server/event_server.go:93-98 | the subscriber is no longer registered and its channel is closed; only open channels stay registered |
| `EventServer.Server.Broadcast` | event_server/event_server.go:100-129 | every registered mailbox gets its own offer, in whatever order the map is ranged over, and no send hits a closed channel |
| `EventServer.Server.Serve` | event_server/event_server.go:163-167 | one receive for a registered client takes the oldest event of its queue and leaves the others alone, as a run's consume action does |
| `EventServer.SubscribersAreIndependent` | event_server/event_server.go:100-129 | what a subscriber gets does not depend on the other subscribers |
| `EventServer.DeliveryIsAccountedFor` | event_server/event_server.go:85-129 | received then queued events are, in order, the matching broadcasts since subscribing without the dropped ones; the counts add up and the queue stays within 16 |
| `EventServer.NothingDroppedIffKeepingUp` | event_server/event_server.go:120-127 | nothing is dropped if and only if the queue has room at every matching broadcast |

## Left out

- Redis source, sink and store, HTTP polling, SQL execution, S3 and Parquet writing, SSE output and logging: foreign calls.
- Protobuf marshalling: messages are decoded values with the attributes the processors, store and database sink use; latitude and longitude are dropped.
- Channel wiring (`Merge`, `FanOut`, `Via`): each processor gets a sequence of calls; `DwellLaws.Connected` says that stop events reach the dwell processor in order and at the clock reading they were sent, and `DwellPipeline.Pipeline` is such a run.
- `process` calls are atomic; the store's lock is not modelled beyond making each store operation atomic.
- Nil processors, nil stores, nil attributes and store errors in the stop processor: not reached with the in-memory store.
- int32 conversion of out-of-range differences is that of amd64; Go leaves it to the implementation. Sub-second timestamps and rounding in `Duration.Seconds` are not modelled.
- Rendering event values as strings for subscriptions, and the generation of subscriber ids, which are taken as fresh.
- The parquet sink, which repeats the batch loop of the database sink, and configuration, validation and the main program.
- The ticker of the sweeper and of the sink: sweeps and ticks may come at any point.
