# Mission service: flow control and mission pipelines in Dafny

This project models the core of the Emergency Response mission service.
The service consumes two Kafka topics.

- **Mission commands.** A `CreateMissionCommand` CloudEvent becomes a
  mission with status CREATED. It gets a route from the directions service:
  driving first, then cycling, then a three-step fallback. The mission is
  written to the mission store and announced with a `MissionStartedEvent`.
- **Responder location updates.** An update appends a history entry to the
  responder's mission. PICKEDUP moves the mission to UPDATED and DROPPED
  moves it to COMPLETED, each announced with its own event. The mission is
  then written back.

A mission command that fails for a reason other than being unusable is not
acknowledged. Instead the partition flow controller
(`MissionSourceRebalanceListener`) pauses its partition at the record's
offset. It schedules a resume after an exponential backoff: 10 s doubling
up to 300 s, restarting after a quiet period. The resume seeks back to that
offset, so the record is read again.

Modules, one file each:

| file | module | models |
|---|---|---|
| wrappers.dfy | Wrappers | `Option` and `Result` |
| text.dfy | Text | `isBlank` over Java's white-space set, `equalsIgnoreCase` |
| decimals.dfy | Decimals | `BigDecimal` as (unscaled, scale), `compareTo`, `setScale(4, HALF_UP)` |
| missions.dfy | Missions | `Mission`, `MissionStep` and its builder, `Location`, `ResponderLocationHistory` |
| backoff.dfy | Backoff | `calculateDelay`'s counter arithmetic |
| flow_control.dfy | FlowControl | `MissionSourceRebalanceListener` as a class over its maps and set |
| route_planner.dfy | RoutePlanner | `RoutePlanner.getDirectionsInternal` |
| repository.dfy | Repository | `MissionRepository` over a map of entries |
| event_sink.dfy | Events | `EventSink`'s two outbound queues |
| mission_command.dfy | MissionCommand | `MissionCommandSource.process` |
| location_update.dfy | LocationUpdate | `ResponderUpdateLocationSource.process` |
| rest_api.dfy | RestApi | `missionByResponder` and `clearAll` |

Java `null` is an `Option`. A raised exception is a `Result` error,
an `Option` that is `None`, or a no-reply outcome, matching where the code
catches it.

Collaborator outcomes are parameters:

- the directions service's answer per profile;
- whether a store write or an event publish succeeds;
- the clock reading `now`, the random UUIDs, and the end offsets the
  consumer reports.

The Kafka consumer's pause, seek and resume calls are appended to a log.

Where the documented behaviour and the code differ, the model follows the
code:

- Backoff counters survive assignment and revocation.
- The location-update pipeline has no CloudEvent gate.
- In the location-update pipeline, a failing publish or store write is not
  recovered. The message is left unacknowledged.
- DROPPED emits no responder command; the code leaves it as a todo.
- When recording the offset at the start of `process` throws
  `IllegalStateException`, the generic failure handler pauses the
  partition.
- `missionByResponder` replies 200; its test expects 201.

## Model

The inductive proofs are Backoff.BackToBackDoubles, Decimals.NumEqIsTransitive, Repository.ByResponderIsFilter and Repository.DecodedCount, plus the loop invariants of RoutePlanner.ClassifyLegs. The recursive helpers Backoff.Pow2, Decimals.Pow10 and Backoff.Delays carry only small facts such as `r >= 1` or a length.

| member | source | states |
|---|---|---|
| Decimals.Round4 | src/main/java/com/redhat/emergency/response/map/RoutePlanner.java:68-69 | the result has scale 4 |
| Decimals.Round4IsExactUpToFourDecimals | src/main/java/com/redhat/emergency/response/map/RoutePlanner.java:54-59 | rounding a value with at most four decimals keeps the number |
| Decimals.Round4IsHalfUp | src/main/java/com/redhat/emergency/response/map/RoutePlanner.java:68-69 | dropping digits rounds to within half a unit of 10^-4 and keeps the sign; a value exactly half-way goes to the neighbour farther from zero |
| Decimals.NumEqIsReflexiveAndSymmetric | src/main/java/com/redhat/emergency/response/model/MissionStep.java:39 | `compareTo(..) == 0` is reflexive and symmetric |
| Decimals.NumEqIsTransitive | src/main/java/com/redhat/emergency/response/model/MissionStep.java:39 | `compareTo(..) == 0` is transitive across scales |
| Text.EqualsIgnoreCaseIsEquivalence | src/main/java/com/redhat/emergency/response/rest/RestApi.java:35 | case-insensitive comparison is an equivalence |
| Missions.StepBuilder.constructor | src/main/java/com/redhat/emergency/response/model/MissionStep.java:62-65 | a built step has the given coordinates and both flags false |
| Missions.StepBuilder.WayPoint | src/main/java/com/redhat/emergency/response/model/MissionStep.java:67-70 | sets only the way-point flag |
| Missions.StepBuilder.Destination | src/main/java/com/redhat/emergency/response/model/MissionStep.java:72-75 | sets only the destination flag |
| Missions.StepEqualsAsWrittenOnlySeesLat | src/main/java/com/redhat/emergency/response/model/MissionStep.java:39 | as written, equal non-null latitudes make two steps equal whatever their longitudes and flags |
| Missions.StepEqualsAsWrittenNullLat | src/main/java/com/redhat/emergency/response/model/MissionStep.java:39-42 | as written, null latitudes and equal flags make two steps equal whatever their longitudes |
| Missions.StepEqualsAsWrittenIsReflexiveAndSymmetric | src/main/java/com/redhat/emergency/response/model/MissionStep.java:34-42 | as written, equality is reflexive and symmetric |
| Missions.StepEqualsAsWrittenIsNotAnEquivalence | src/main/java/com/redhat/emergency/response/model/MissionStep.java:39-42 | as written, a way-point equals a destination at another longitude, and equality is not transitive |
| Missions.StepEqualsIsEquivalence | src/main/java/com/redhat/emergency/response/model/MissionStep.java:39-42 | the equality comparing latitude, longitude and both flags is an equivalence |
| Missions.StepEqualsAsWrittenIsWeaker | src/main/java/com/redhat/emergency/response/model/MissionStep.java:39-42 | steps equal under the corrected rule are equal as written |
| Missions.EmptyDocumentIsNewMission | src/main/java/com/redhat/emergency/response/model/Mission.java:40-44 | a document without properties decodes to the fresh mission: the drawn UUID, no ids, no status, empty steps and history |
| Missions.MapToInvertsToJson | src/main/java/com/redhat/emergency/response/model/Mission.java:106-108 | decoding the document a mission with an id is written as gives that mission back, and every decoded mission survives a second write and read |
| Missions.WithStatusKeepsIdentity | src/main/java/com/redhat/emergency/response/source/MissionCommandSource.java:58 | setting the status keeps the key, the hash code and equality, and only the last status set counts |
| Missions.HashCode | src/main/java/com/redhat/emergency/response/model/Mission.java:128-131 | the hash is a 32-bit `int` |
| Missions.MissionEqualsIsEquivalence | src/main/java/com/redhat/emergency/response/model/Mission.java:115-121 | mission equality is an equivalence |
| Missions.EqualMissionsShareKeyAndHash | src/main/java/com/redhat/emergency/response/model/Mission.java:115-131 | equal missions have equal keys and equal hash codes |
| Missions.KeyIdentifiesMission | src/main/java/com/redhat/emergency/response/model/Mission.java:123-126 | for non-null ids with no ':' in the incident id, equal keys mean equal missions and back |
| Missions.KeysCanCollide | src/main/java/com/redhat/emergency/response/model/Mission.java:123-126 | without that restriction two unequal missions share a key |
| Backoff.FirstPauseIsOneAttempt | src/main/java/com/redhat/emergency/response/source/MissionSourceRebalanceListener.java:120-134 | the first pause of a partition stores one attempt |
| Backoff.PauseWithinWindowDoubles | src/main/java/com/redhat/emergency/response/source/MissionSourceRebalanceListener.java:125-131 | a pause within one base delay of the expected resume doubles the attempts |
| Backoff.QuietPeriodResets | src/main/java/com/redhat/emergency/response/source/MissionSourceRebalanceListener.java:125-133 | a pause more than one base delay after the expected resume restarts at one attempt and the first-tier delay |
| Backoff.AdvanceKeepsPowerOfTwo | src/main/java/com/redhat/emergency/response/source/MissionSourceRebalanceListener.java:131 | stored attempts stay powers of two |
| Backoff.DelayWithinBounds | src/main/java/com/redhat/emergency/response/source/MissionSourceRebalanceListener.java:133 | with positive settings the delay is positive and at most maxDelay |
| Backoff.DefaultScheduleOfImmediatePauses | src/main/java/com/redhat/emergency/response/source/MissionSourceRebalanceListener.java:32-36 | under the defaults, repeated pauses wait 10, 20, 40, 80, 160, 300, 300 seconds |
| Backoff.BackToBackDoubles | src/main/java/com/redhat/emergency/response/source/MissionSourceRebalanceListener.java:120-134 | the n-th back-to-back failure stores 2^(n-1) attempts, never a reset |
| Backoff.AsWrittenAgreesInRange | src/main/java/com/redhat/emergency/response/source/MissionSourceRebalanceListener.java:120-134 | while no intermediate value leaves the 64-bit range, the long arithmetic computes the intended delay |
| Backoff.DelayOverflowsAsWritten | src/main/java/com/redhat/emergency/response/source/MissionSourceRebalanceListener.java:133 | at 2^49 stored attempts the code returns a negative delay where 300000 is intended |
| Backoff.FiftyFailuresReachTheOverflow | src/main/java/com/redhat/emergency/response/source/MissionSourceRebalanceListener.java:131 | 50 back-to-back failures store exactly 2^49 attempts |
| FlowControl.SetOffsetSpec | src/main/java/com/redhat/emergency/response/source/MissionSourceRebalanceListener.java:74-90 | an update touches only its own partition, and throws only when recording an offset for a paused partition |
| FlowControl.SetOffsetFailsIffRecordingWhilePaused | src/main/java/com/redhat/emergency/response/source/MissionSourceRebalanceListener.java:82-83 | `setOffset` throws exactly when a real offset is recorded for a paused entry |
| FlowControl.RecordOnRunningPartition | src/main/java/com/redhat/emergency/response/source/MissionSourceRebalanceListener.java:84-88 | recording on an unpaused or absent entry stores (offset, false) |
| FlowControl.PauseKeepsLowestOffset | src/main/java/com/redhat/emergency/response/source/MissionSourceRebalanceListener.java:84-87 | after a pause the entry is paused at the failed offset, or at the lower offset it already had |
| FlowControl.PauseReportsNewPause | src/main/java/com/redhat/emergency/response/source/MissionSourceRebalanceListener.java:76-88 | a pause reports a new pause exactly for a stored unpaused entry; an absent entry is paused but reports none |
| FlowControl.FlagOnlyKeepsOffset | src/main/java/com/redhat/emergency/response/source/MissionSourceRebalanceListener.java:77-81 | the -1 form keeps and returns the stored offset, seeding -1 for an absent entry |
| FlowControl.ResumeSeeksToFailedOffset | src/main/java/com/redhat/emergency/response/source/MissionSourceRebalanceListener.java:74-90 | a pause followed by a resume answers the failed offset and leaves the entry unpaused |
| FlowControl.RebalanceListener.constructor | src/main/java/com/redhat/emergency/response/source/MissionSourceRebalanceListener.java:38-42 | the listener starts with empty counters, partitions, offsets and consumer log |
| FlowControl.RebalanceListener.OnPartitionsAssigned | src/main/java/com/redhat/emergency/response/source/MissionSourceRebalanceListener.java:47-56 | for end offsets reported for exactly the new partitions, adds the partitions and seeds each end offset unpaused; counters stay |
| FlowControl.RebalanceListener.OnPartitionsRevoked | src/main/java/com/redhat/emergency/response/source/MissionSourceRebalanceListener.java:59-64 | removes the partitions and their offset entries; counters stay |
| FlowControl.RebalanceListener.SetOffset | src/main/java/com/redhat/emergency/response/source/MissionSourceRebalanceListener.java:74-90 | the table and reply follow SetOffsetSpec; nothing else changes |
| FlowControl.RebalanceListener.RecordOffset | src/main/java/com/redhat/emergency/response/source/MissionSourceRebalanceListener.java:66-68 | the three-argument form records an unpaused offset |
| FlowControl.RebalanceListener.SetPaused | src/main/java/com/redhat/emergency/response/source/MissionSourceRebalanceListener.java:70-72 | the flag-only form never throws and keeps the offset |
| FlowControl.RebalanceListener.CalculateDelay | src/main/java/com/redhat/emergency/response/source/MissionSourceRebalanceListener.java:120-134 | stores the advanced counter and returns its capped delay, positive and at most maxDelay; counters stay powers of two; while no intermediate value leaves the 64-bit range, counter and delay are what the long arithmetic gives |
| FlowControl.RebalanceListener.Pause | src/main/java/com/redhat/emergency/response/source/MissionSourceRebalanceListener.java:92-105 | only a new pause pauses the consumer, advances the counter and schedules a resume after the delay; in the 64-bit range that delay is the long arithmetic's |
| FlowControl.RebalanceListener.Resume | src/main/java/com/redhat/emergency/response/source/MissionSourceRebalanceListener.java:107-118 | on an assigned partition, clears the flag, seeks to the stored offset and resumes; otherwise nothing changes |
| FlowControl.PauseAndResumeScenario | src/main/java/com/redhat/emergency/response/source/MissionSourceRebalanceListener.java:92-118 | assigned at end offset 1000, a failure at 1005 pauses for 10 s and the resume seeks to 1005 |
| RoutePlanner.Classify | src/main/java/com/redhat/emergency/response/map/RoutePlanner.java:65-79 | one step per maneuver |
| RoutePlanner.FallbackIsThreeStopRoute | src/main/java/com/redhat/emergency/response/map/RoutePlanner.java:52-60 | the fallback is the classification of a departure from the origin and arrivals at the way-point and the destination; at most four decimals, its steps lie exactly at the locations |
| RoutePlanner.ClassifyPrefix | src/main/java/com/redhat/emergency/response/map/RoutePlanner.java:65-79 | steps are built left to right: a prefix of maneuvers yields a prefix of steps |
| RoutePlanner.WayPointSoFar | src/main/java/com/redhat/emergency/response/map/RoutePlanner.java:71-76 | the steps before k hold a way-point exactly when an arrival occurs before k |
| RoutePlanner.StepAt | src/main/java/com/redhat/emergency/response/map/RoutePlanner.java:66-78 | step k has the rounded coordinates; it is the way-point iff it is the first arrival and the destination iff it is a later one |
| RoutePlanner.OneWayPoint | src/main/java/com/redhat/emergency/response/map/RoutePlanner.java:70-77 | at most one step is the way-point, and it is not also a destination |
| RoutePlanner.DestinationFollowsWayPoint | src/main/java/com/redhat/emergency/response/map/RoutePlanner.java:71-76 | a way-point precedes every destination step |
| RoutePlanner.TwoArrivals | src/test/java/com/redhat/emergency/response/map/RoutePlannerTest.java:64-70 | arrivals at exactly i < j flag step i way-point and step j destination, and nothing else |
| RoutePlanner.DrivingRouteWins | src/main/java/com/redhat/emergency/response/map/RoutePlanner.java:47-49 | a driving answer with routes is used without asking for cycling |
| RoutePlanner.DirectionsFailsIffCallFails | src/main/java/com/redhat/emergency/response/map/RoutePlanner.java:81-84 | the planner fails exactly when a call it makes fails |
| RoutePlanner.NoRouteFallsBack | src/main/java/com/redhat/emergency/response/map/RoutePlanner.java:49-60 | no route under either profile gives the fallback |
| RoutePlanner.FindFirstWayPoint | src/main/java/com/redhat/emergency/response/map/RoutePlanner.java:71 | finds a step exactly when one is a way-point, and returns the first |
| RoutePlanner.BuildStep | src/main/java/com/redhat/emergency/response/map/RoutePlanner.java:66-78 | builds the step the classification specifies for the maneuver |
| RoutePlanner.ClassifyLegs | src/main/java/com/redhat/emergency/response/map/RoutePlanner.java:64-79 | the stream over legs builds exactly Classify of the flattened maneuvers |
| RoutePlanner.GetDirections | src/main/java/com/redhat/emergency/response/map/RoutePlanner.java:42-85 | returns what Directions specifies and asks cycling only after an empty driving answer |
| Repository.DecodedMembership | src/main/java/com/redhat/emergency/response/repository/MissionRepository.java:74-85 | a mission is listed iff some entry decodes to it |
| Repository.DecodedCount | src/main/java/com/redhat/emergency/response/repository/MissionRepository.java:74-85 | one mission is listed per decodable entry |
| Repository.ByResponderIsFilter | src/main/java/com/redhat/emergency/response/repository/MissionRepository.java:97-108 | the responder query throws iff a decodable mission lacks a responder id, and is otherwise the filter of the decodable missions |
| Repository.ForResponderMembership | src/main/java/com/redhat/emergency/response/repository/MissionRepository.java:107 | the filter keeps exactly the responder's missions |
| Repository.MissionRepository.constructor | src/main/java/com/redhat/emergency/response/repository/MissionRepository.java:37 | the store starts with the given entries |
| Repository.MissionRepository.Add | src/main/java/com/redhat/emergency/response/repository/MissionRepository.java:48-54 | stores the mission under its key, replacing any entry; other keys unchanged |
| Repository.MissionRepository.GetAll | src/main/java/com/redhat/emergency/response/repository/MissionRepository.java:74-86 | exactly the decodable missions, one per entry |
| Repository.MissionRepository.Clear | src/main/java/com/redhat/emergency/response/repository/MissionRepository.java:88-95 | empties the store |
| Repository.MissionRepository.GetByResponderId | src/main/java/com/redhat/emergency/response/repository/MissionRepository.java:97-109 | exactly the decodable missions of the responder, or the error a null responder id raises |
| Events.EventSink.constructor | src/main/java/com/redhat/emergency/response/sink/EventSink.java:27-29 | both queues start empty |
| Events.EventSink.MissionEvent | src/main/java/com/redhat/emergency/response/sink/EventSink.java:43-50 | appends one record keyed by the incident id, carrying the mission; the responder queue is unchanged |
| Events.EventSink.MissionStarted | src/main/java/com/redhat/emergency/response/sink/EventSink.java:31-33 | appends a MissionStartedEvent |
| Events.EventSink.MissionPickedUp | src/main/java/com/redhat/emergency/response/sink/EventSink.java:35-37 | appends a MissionPickedUpEvent |
| Events.EventSink.MissionCompleted | src/main/java/com/redhat/emergency/response/sink/EventSink.java:39-41 | appends a MissionCompletedEvent |
| Events.EventSink.ResponderCommand | src/main/java/com/redhat/emergency/response/sink/EventSink.java:52-61 | appends an UpdateResponderCommand keyed by the responder id, available, enrolled unless a person; the mission queue is unchanged |
| Events.MissionStartedScenario | src/test/java/com/redhat/emergency/response/sink/EventSinkTest.java:51-64 | a started mission yields one record keyed by its incident id with its snapshot as body |
| MissionCommand.Accept | src/main/java/com/redhat/emergency/response/source/MissionCommandSource.java:93-112 | the payload passes iff it is a CloudEvent with JSON content type, case-insensitive with a missing type counting as "", and type CreateMissionCommand |
| MissionCommand.Validate | src/main/java/com/redhat/emergency/response/source/MissionCommandSource.java:114-131 | a mission iff the text decodes, both ids are present and not blank, and all six coordinates are present |
| MissionCommand.ValidatedMissionIsRoutable | src/main/java/com/redhat/emergency/response/source/MissionCommandSource.java:118-122 | a validated mission has complete responder, destination and incident locations |
| MissionCommand.IgnoredHasNoEffect | src/main/java/com/redhat/emergency/response/source/MissionCommandSource.java:56-63 | an unaccepted or invalid message is acknowledged with nothing stored or announced |
| MissionCommand.ProcessedStoresCreatedMissionWithRoute | src/main/java/com/redhat/emergency/response/source/MissionCommandSource.java:58-62 | a processed mission is CREATED, keeps its steps followed by the route's, and is stored and announced |
| MissionCommand.FailureStopsLaterStages | src/main/java/com/redhat/emergency/response/source/MissionCommandSource.java:59-73 | a failure announces nothing, and a mission is stored only when the publish is what failed |
| MissionCommand.ProcessedNeedsEveryStage | src/main/java/com/redhat/emergency/response/source/MissionCommandSource.java:56-64 | a message is processed iff recording, validation, route, store and publish all succeed |
| MissionCommand.MissionCommandSource.Process | src/main/java/com/redhat/emergency/response/source/MissionCommandSource.java:46-74 | records the offset first; the route is asked for (responder, destination, incident); store, event and acknowledgement follow the plan; a failure pauses the partition at the offset, or acknowledges without metadata |
| LocationUpdate.GetLocationUpdate | src/main/java/com/redhat/emergency/response/source/ResponderUpdateLocationSource.java:74-91 | an update passes iff it decodes with the three ids and the status present and not blank, and lat, lon, human and continue present |
| LocationUpdate.UpdateKeyIsMissionKey | src/main/java/com/redhat/emergency/response/source/ResponderUpdateLocationSource.java:93-95 | the lookup key is the key the mission of the same incident and responder is stored under |
| LocationUpdate.HistoryGrowsByOne | src/main/java/com/redhat/emergency/response/source/ResponderUpdateLocationSource.java:47-50 | the history gains exactly the update's position and time, after the entries it had |
| LocationUpdate.StatusTransitions | src/main/java/com/redhat/emergency/response/source/ResponderUpdateLocationSource.java:58-70 | PICKEDUP gives UPDATED, DROPPED gives COMPLETED, anything else keeps the status; the key and the steps are kept |
| LocationUpdate.TransitionAnnounces | src/main/java/com/redhat/emergency/response/source/ResponderUpdateLocationSource.java:58-70 | exactly PICKEDUP and DROPPED announce an event, picked-up and completed respectively |
| LocationUpdate.ResponderUpdateLocationSource.Process | src/main/java/com/redhat/emergency/response/source/ResponderUpdateLocationSource.java:37-56 | invalid or unknown updates are acknowledged with no effect; otherwise the updated mission is announced, then stored, then acknowledged; a failure leaves it unacknowledged |
| RestApi.FindCurrent | src/main/java/com/redhat/emergency/response/rest/RestApi.java:33-36 | the first mission whose status is UPDATED or CREATED in any case; none iff every status is present and neither; an error iff a missing status comes first |
| RestApi.MissionByResponder | src/main/java/com/redhat/emergency/response/rest/RestApi.java:31-38 | 204 without an id; no reply exactly when the query or the filter throws; otherwise 200 with the first current mission of the responder, or 204 when there is none |
| RestApi.CurrentMissionIsFirstCurrent | src/main/java/com/redhat/emergency/response/rest/RestApi.java:35 | the first current mission is the one selected |
| RestApi.CurrentStatusIgnoresCase | src/main/java/com/redhat/emergency/response/rest/RestApi.java:35 | "Created" and "updated" are current and "COMPLETED" is not |
| RestApi.SelectionExamples | src/test/java/com/redhat/emergency/response/rest/RestApiTest.java:104-148 | COMPLETED then CREATED selects the CREATED mission; two COMPLETED or none select nothing |
| RestApi.ClearAll | src/main/java/com/redhat/emergency/response/rest/RestApi.java:24-28 | clears the store and replies 201 with {"result":"completed"} |

## Left out

- `BigDecimal.valueOf(double)`, `getDouble` and `doubleValue()` are left out. Floating point is not modelled: coordinates arrive as decimals.
- JSON text is not modelled. A payload is `Malformed` or a decoded document. A store entry holds the mission itself, which rests on Missions.MapToInvertsToJson. A store entry written by another party may be `Undecodable`. A property written as an explicit `null` is not told apart from an absent one.
- The directions service HTTP call is a function from profile and locations to an answer.
- Kafka is not modelled. The consumer's `endOffsets` are an input. Its pause, seek and resume calls are a log.
- Pausing before any assignment, when the consumer field is still null, is not modelled.
- `synchronized`, the worker pools and the Mutiny plumbing are left out.
- The delayed resume timer becomes the delay `Pause` answers. The later `Resume` is a separate call.
- `calculateDelay` reads the clock at most twice per call. The text has three reads, but the first happens only when there is no counter yet, and that zero counter skips the second. The model uses one reading, `now`.
- `UUID.randomUUID()` and the envelope timestamp are parameters.
- The `@Outgoing` streams and `toMessage` are not modelled. The queues are the records handed to the channels.
- `allMissions` is left out; it is plain HTTP output of GetAll.
- The lazy cache initialisation and `onStart` are left out.
- `toJson` is modelled as the document `Missions.ToJson`. Only its JSON text, `toString` and the plain getters and setters are left out.
- The key set's iteration order is unspecified. GetAll and GetByResponderId take it as a parameter.
- Java's `equalsIgnoreCase` also folds non-ASCII letters. The model folds ASCII only.
- Equality of MissionStep, Mission and decimals is modelled as predicates. Reference identity (`this == o`) is not modelled.
- FlowControl.RebalanceListener.CalculateDelay: computes the counter and the delay in unbounded arithmetic, the corrected half of the first finding. Its result equals the 64-bit code (Backoff.CalculateDelayAsWritten) whenever Backoff.NoLongOverflow holds. From 2^50 stored attempts the code's wrapped, negative delay is not what the class does.
- FlowControl.RebalanceListener.Pause: the delay it answers comes from CalculateDelay, so the same holds: in the 64-bit range it is the code's delay, beyond it the corrected one.
- MissionCommand.MissionCommandSource.Process: the pause delay it reports is Pause's, hence the corrected one past the 64-bit range.

## Findings

| source | as written | input that shows it | evidently intended | confidence | as-written member | corrected member |
|---|---|---|---|---|---|---|
| src/main/java/com/redhat/emergency/response/source/MissionSourceRebalanceListener.java:133 | `counter * delay` is computed in 64-bit `long` | 50 back-to-back failures store 2^49 attempts; the 51st pause doubles to 2^50, and 2^50 * 10000 wraps negative | the delay is capped at maxDelay (300000 ms) | not executed | Backoff.DelayOverflowsAsWritten | Backoff.DelayWithinBounds |
| src/main/java/com/redhat/emergency/response/model/MissionStep.java:39-42 | `&&` binds tighter than `\|\|`, and the second null test repeats `lat` | steps (lat 1, lon 2, way-point) and (lat 1, lon 3, destination) compare equal | equal latitude, longitude and both flags | not executed | Missions.StepEqualsAsWrittenIsNotAnEquivalence | Missions.StepEqualsIsEquivalence |
