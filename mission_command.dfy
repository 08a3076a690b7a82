/** The mission-command consumer: every CreateMissionCommand CloudEvent
    becomes a CREATED mission with a planned route, stored and announced
    with a MissionStarted event; an unusable message is acknowledged and
    dropped, and a message whose processing fails pauses its partition at
    the message's offset. */
module MissionCommand {
  import opened Wrappers
  import opened Text
  import opened Missions
  import opened FlowControl
  import opened Backoff
  import opened RoutePlanner
  import opened Repository
  import opened Events

  const CREATE_MISSION_COMMAND := "CreateMissionCommand"
  const ACCEPTED_MESSAGE_TYPES: seq<string> := [CREATE_MISSION_COMMAND]
  const APPLICATION_JSON := "application/json"

  /** The Kafka record a message came from. */
  datatype KafkaMetadata = KafkaMetadata(topic: string, partition: int, offset: int)

  /** The CloudEvents `datacontenttype` (optional) and `type` attributes. */
  datatype CloudEventMetadata = CloudEventMetadata(dataContentType: Option<string>, eventType: string)

  datatype Message = Message(kafka: Option<KafkaMetadata>, cloudEvent: Option<CloudEventMetadata>, payload: Payload<MissionJson>)

  /** Why a message was acknowledged. */
  datatype AckReason = Processed | Ignored | FailedWithoutMetadata

  /** What became of a message: acknowledged, or its partition paused
      (with the delay of a new pause) and the message left unacknowledged. */
  datatype Disposition = Acked(reason: AckReason) | Paused(resumeAfter: Option<int>)

  /** `accept`: the payload of a JSON CloudEvent of an accepted type. */
  function Accept(msg: Message): (r: Option<Payload<MissionJson>>)
    ensures r.Some? <==> (msg.cloudEvent.Some?
                          && EqualsIgnoreCase(msg.cloudEvent.value.dataContentType.GetOr(""), APPLICATION_JSON)
                          && msg.cloudEvent.value.eventType == CREATE_MISSION_COMMAND)
    ensures r.Some? ==> r.value == msg.payload
  {
    if msg.cloudEvent.None? then None
    else
      var ce := msg.cloudEvent.value;
      var dataContentType := ce.dataContentType.GetOr("");
      if !EqualsIgnoreCase(dataContentType, APPLICATION_JSON) then None
      else if ce.eventType !in ACCEPTED_MESSAGE_TYPES then None
      else Some(msg.payload)
  }

  /** The filters of `validate`. */
  predicate Complete(m: Mission) {
    PresentText(m.incidentId) && PresentText(m.responderId)
    && m.incidentLat.Some? && m.incidentLong.Some?
    && m.responderStartLat.Some? && m.responderStartLong.Some?
    && m.destinationLat.Some? && m.destinationLong.Some?
  }

  /** `validate`: the decoded mission, if the text is JSON and the mission
      has both ids (not blank) and all six coordinates. `uuid` stands for the
      random id of the constructed mission. */
  function Validate(payload: Payload<MissionJson>, uuid: string): (r: Option<Mission>)
    ensures r.Some? <==> (payload.Json?
                          && PresentText(payload.doc.incidentId) && PresentText(payload.doc.responderId)
                          && payload.doc.incidentLat.Some? && payload.doc.incidentLong.Some?
                          && payload.doc.responderStartLat.Some? && payload.doc.responderStartLong.Some?
                          && payload.doc.destinationLat.Some? && payload.doc.destinationLong.Some?)
    ensures r.Some? ==> r.value == MapTo(payload.doc, uuid)
  {
    match payload
    case Malformed => None
    case Json(j) =>
      var m := MapTo(j, uuid);
      if Complete(m) then Some(m) else None
  }

  /** A validated mission can be routed: all three locations are complete. */
  lemma ValidatedMissionIsRoutable(payload: Payload<MissionJson>, uuid: string)
    requires Validate(payload, uuid).Some?
    ensures var m := Validate(payload, uuid).value;
            LocationComplete(ResponderLocation(m)) && LocationComplete(DestinationLocation(m))
            && LocationComplete(IncidentLocation(m))
  {
  }

  /** Accepted, validated and marked CREATED. */
  function Prepared(msg: Message, uuid: string): Option<Mission> {
    var payload := Accept(msg);
    if payload.None? then None
    else
      var m := Validate(payload.value, uuid);
      if m.None? then None else Some(WithStatus(m.value, Created))
  }

  /** `addRoute`: the planner asked for (responder, destination, incident),
      its steps appended to the mission's. */
  function Routed(m: Mission, api: DirectionsApi): Result<Mission, RouteError>
    requires Complete(m)
  {
    var r := Directions(api, ResponderLocation(m), DestinationLocation(m), IncidentLocation(m));
    if r.Err? then Err(r.error) else Ok(m.(steps := m.steps + r.value))
  }

  datatype Verdict = AckProcessed | AckIgnored | Failure

  /** The pipeline's outcome: the verdict, the mission written to the store
      and the mission announced, given whether recording the offset throws
      and whether the store write and the publish succeed. */
  datatype Plan = Plan(verdict: Verdict, stored: Option<Mission>, published: Option<Mission>)

  lemma PreparedIsComplete(msg: Message, uuid: string)
    requires Prepared(msg, uuid).Some?
    ensures Complete(Prepared(msg, uuid).value)
  {
  }

  function Expected(msg: Message, uuid: string, api: DirectionsApi, recordFails: bool, storeOk: bool, publishOk: bool): Plan {
    if recordFails then Plan(Failure, None, None)
    else
      var prepared := Prepared(msg, uuid);
      if prepared.None? then Plan(AckIgnored, None, None)
      else
        PreparedIsComplete(msg, uuid);
        var routed := Routed(prepared.value, api);
        if routed.Err? then Plan(Failure, None, None)
        else if !storeOk then Plan(Failure, None, None)
        else if !publishOk then Plan(Failure, Some(routed.value), None)
        else Plan(AckProcessed, Some(routed.value), Some(routed.value))
  }

  /** A message that is not an accepted CloudEvent, or whose mission does
      not validate, is acknowledged with nothing stored or announced. */
  lemma IgnoredHasNoEffect(msg: Message, uuid: string, api: DirectionsApi, storeOk: bool, publishOk: bool)
    requires Accept(msg).None? || Validate(Accept(msg).value, uuid).None?
    ensures Expected(msg, uuid, api, false, storeOk, publishOk) == Plan(AckIgnored, None, None)
  {
  }

  /** A processed message stored and announced the same mission: the
      command's mission with status CREATED and the route's steps after the
      steps it came with. */
  lemma ProcessedStoresCreatedMissionWithRoute(msg: Message, uuid: string, api: DirectionsApi, recordFails: bool, storeOk: bool, publishOk: bool)
    requires Expected(msg, uuid, api, recordFails, storeOk, publishOk).verdict == AckProcessed
    ensures var plan := Expected(msg, uuid, api, recordFails, storeOk, publishOk);
            var m := Validate(Accept(msg).value, uuid).value;
            var route := Directions(api, ResponderLocation(m), DestinationLocation(m), IncidentLocation(m));
            plan.stored.Some? && plan.published == plan.stored
            && plan.stored.value.status == Some("CREATED")
            && route.Ok? && plan.stored.value.steps == m.steps + route.value
            && MissionEquals(plan.stored.value, m)
  {
  }

  /** A failing stage stops the pipeline: a route failure writes nothing, a
      store failure announces nothing, and only a publish failure leaves a
      stored mission behind. */
  lemma FailureStopsLaterStages(msg: Message, uuid: string, api: DirectionsApi, recordFails: bool, storeOk: bool, publishOk: bool)
    requires Expected(msg, uuid, api, recordFails, storeOk, publishOk).verdict == Failure
    ensures var plan := Expected(msg, uuid, api, recordFails, storeOk, publishOk);
            plan.published.None?
            && (plan.stored.Some? ==> !recordFails && storeOk && !publishOk)
            && (plan.stored.None? && !recordFails && storeOk && !publishOk ==>
                  (PreparedIsComplete(msg, uuid); Routed(Prepared(msg, uuid).value, api).Err?))
  {
  }

  /** Success requires every stage to succeed. */
  lemma ProcessedNeedsEveryStage(msg: Message, uuid: string, api: DirectionsApi, recordFails: bool, storeOk: bool, publishOk: bool)
    ensures Expected(msg, uuid, api, recordFails, storeOk, publishOk).verdict == AckProcessed
            <==> !recordFails && storeOk && publishOk && Prepared(msg, uuid).Some?
                 && (PreparedIsComplete(msg, uuid); Routed(Prepared(msg, uuid).value, api).Ok?)
  {
    if Prepared(msg, uuid).Some? {
      PreparedIsComplete(msg, uuid);
    }
  }

  function PartitionOf(k: KafkaMetadata): TopicPartition {
    TopicPartition(k.topic, k.partition)
  }

  /** The offset table once the record's offset has been recorded (left as
      it was when recording throws). */
  function AfterRecord(offsets: map<TopicPartition, OffsetEntry>, k: KafkaMetadata): map<TopicPartition, OffsetEntry> {
    var s := SetOffsetSpec(offsets, PartitionOf(k), k.offset, false);
    if s.Ok? then s.value.0 else offsets
  }

  /** Recording the message's offset throws: its partition is paused. */
  predicate RecordFails(msg: Message, offsets: map<TopicPartition, OffsetEntry>) {
    msg.kafka.Some? && SetOffsetSpec(offsets, PartitionOf(msg.kafka.value), msg.kafka.value.offset, false).Err?
  }

  class MissionCommandSource {
    const repository: MissionRepository
    const eventSink: EventSink
    const rebalanceListener: RebalanceListener

    predicate Valid()
      reads this, eventSink, rebalanceListener
    {
      eventSink.Valid() && rebalanceListener.Valid()
    }

    constructor(repository: MissionRepository, eventSink: EventSink, rebalanceListener: RebalanceListener)
      requires eventSink.Valid() && rebalanceListener.Valid()
      ensures Valid()
      ensures this.repository == repository && this.eventSink == eventSink
      ensures this.rebalanceListener == rebalanceListener
    {
      this.repository := repository;
      this.eventSink := eventSink;
      this.rebalanceListener := rebalanceListener;
    }

    /** `process`. `uuid` is the id a new mission draws, `api` the
        directions service, `storeOk` and `publishOk` whether the store
        write and the event publish succeed, `now` the clock and `eventId`
        the envelope id. `routeRequest` is what the planner was asked for. */
    method Process(msg: Message, uuid: string, api: DirectionsApi, storeOk: bool, publishOk: bool, now: int, eventId: string)
      returns (disposition: Disposition, routeRequest: Option<(Location, Location, Location)>)
      requires Valid()
      modifies repository, eventSink, rebalanceListener
      ensures Valid()
      ensures var plan := Expected(msg, uuid, api, RecordFails(msg, old(rebalanceListener.offsets)), storeOk, publishOk);
              (plan.stored.Some? ==> repository.cache == old(repository.cache)[GetKey(plan.stored.value) := Stored(plan.stored.value)])
              && (plan.stored.None? ==> repository.cache == old(repository.cache))
              && (plan.published.Some? ==>
                    eventSink.missionQueue == old(eventSink.missionQueue)
                      + [Record(plan.published.value.incidentId, InitMessage(eventId, now, MISSION_STARTED, MissionBody(plan.published.value)))])
              && (plan.published.None? ==> eventSink.missionQueue == old(eventSink.missionQueue))
              && eventSink.responderQueue == old(eventSink.responderQueue)
              && (plan.verdict == AckProcessed ==> disposition == Acked(Processed))
              && (plan.verdict == AckIgnored ==> disposition == Acked(Ignored))
              && (plan.verdict == Failure && msg.kafka.None? ==> disposition == Acked(FailedWithoutMetadata))
              && (plan.verdict == Failure && msg.kafka.Some? ==> disposition.Paused?)
      ensures !RecordFails(msg, old(rebalanceListener.offsets)) ==>
                routeRequest == (var m := Prepared(msg, uuid);
                                 if m.Some? then Some((ResponderLocation(m.value), DestinationLocation(m.value), IncidentLocation(m.value)))
                                 else None)
      ensures RecordFails(msg, old(rebalanceListener.offsets)) ==> routeRequest == None
      ensures msg.kafka.None? ==>
                rebalanceListener.offsets == old(rebalanceListener.offsets)
                && rebalanceListener.counters == old(rebalanceListener.counters)
                && rebalanceListener.consumerCalls == old(rebalanceListener.consumerCalls)
      ensures msg.kafka.Some? && !disposition.Paused? ==>
                rebalanceListener.offsets == AfterRecord(old(rebalanceListener.offsets), msg.kafka.value)
                && rebalanceListener.counters == old(rebalanceListener.counters)
                && rebalanceListener.consumerCalls == old(rebalanceListener.consumerCalls)
      ensures msg.kafka.Some? && disposition.Paused? ==>
                var k := msg.kafka.value;
                var tp := PartitionOf(k);
                var s := SetOffsetSpec(AfterRecord(old(rebalanceListener.offsets), k), tp, k.offset, true);
                var oldCounter := if tp in old(rebalanceListener.counters) then Some(old(rebalanceListener.counters)[tp]) else None;
                s.Ok? && rebalanceListener.offsets == s.value.0
                && (s.value.1.flag ==>
                      rebalanceListener.consumerCalls == old(rebalanceListener.consumerCalls) + [PauseCall(tp)]
                      && rebalanceListener.counters == old(rebalanceListener.counters)[tp := Advance(oldCounter, now, rebalanceListener.delay, rebalanceListener.maxDelay)]
                      && disposition.resumeAfter == Some(DelayFor(rebalanceListener.counters[tp], rebalanceListener.delay, rebalanceListener.maxDelay)))
                && (!s.value.1.flag ==>
                      rebalanceListener.consumerCalls == old(rebalanceListener.consumerCalls)
                      && rebalanceListener.counters == old(rebalanceListener.counters)
                      && disposition.resumeAfter == None)
      ensures rebalanceListener.topicPartitions == old(rebalanceListener.topicPartitions)
    {
      routeRequest := None;
      var failed := false;
      // the offset of every record is recorded before anything else
      if msg.kafka.Some? {
        var k := msg.kafka.value;
        var recorded := rebalanceListener.RecordOffset(k.topic, k.partition, k.offset);
        failed := recorded.Err?;
      }
      if !failed {
        var payload := Accept(msg);
        var mission := if payload.Some? then Validate(payload.value, uuid) else None;
        if mission.None? {
          return Acked(Ignored), routeRequest;
        }
        var m := WithStatus(mission.value, Created);
        routeRequest := Some((ResponderLocation(m), DestinationLocation(m), IncidentLocation(m)));
        var steps, _ := GetDirections(api, ResponderLocation(m), DestinationLocation(m), IncidentLocation(m));
        if steps.Err? {
          failed := true;
        } else {
          m := m.(steps := m.steps + steps.value);
          if !storeOk {
            failed := true;
          } else {
            repository.Add(m);
            if !publishOk {
              failed := true;
            } else {
              eventSink.MissionStarted(m, eventId, now);
              return Acked(Processed), routeRequest;
            }
          }
        }
      }
      // the generic failure handler
      if msg.kafka.Some? {
        var k := msg.kafka.value;
        var resumeAfter := rebalanceListener.Pause(k.topic, k.partition, k.offset, now);
        disposition := Paused(resumeAfter);
      } else {
        disposition := Acked(FailedWithoutMetadata);
      }
    }
  }
}
