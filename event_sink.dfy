/** The outbound event sink: two append-only queues of (key, envelope)
    records, one for the mission-event channel and one for the
    responder-command channel. */
module Events {
  import opened Wrappers
  import opened Decimals
  import opened Missions

  const INVOKING_SERVICE := "MissionService"
  const MISSION_STARTED := "MissionStartedEvent"
  const MISSION_PICKED_UP := "MissionPickedUpEvent"
  const MISSION_COMPLETED := "MissionCompletedEvent"
  const UPDATE_RESPONDER_COMMAND := "UpdateResponderCommand"

  /** The `body` of an envelope: a mission snapshot, or the `responder`
      object of a responder command. */
  datatype Body =
    | MissionBody(mission: Mission)
    | ResponderBody(responderId: Option<string>, latitude: Decimal, longitude: Decimal, available: bool, enrolled: bool)

  datatype Envelope = Envelope(id: string, invokingService: string, timestamp: int, messageType: string, body: Body)

  /** A record handed to the channel: its Kafka key and its envelope. */
  datatype Record = Record(key: Option<string>, envelope: Envelope)

  /** `initMessage` followed by `put("body", ...)`; `id` stands for the
      random UUID and `timestamp` for the clock reading. */
  function InitMessage(id: string, timestamp: int, messageType: string, body: Body): (e: Envelope)
    ensures e.invokingService == INVOKING_SERVICE
    ensures e.id == id && e.timestamp == timestamp && e.messageType == messageType && e.body == body
  {
    Envelope(id, INVOKING_SERVICE, timestamp, messageType, body)
  }

  predicate IsMissionEventType(t: string) {
    t == MISSION_STARTED || t == MISSION_PICKED_UP || t == MISSION_COMPLETED
  }

  /** A well-formed mission-event record: keyed by the incident id of the
      mission it carries. */
  predicate MissionRecord(r: Record) {
    r.envelope.invokingService == INVOKING_SERVICE
    && r.envelope.body.MissionBody?
    && r.key == r.envelope.body.mission.incidentId
  }

  /** A well-formed responder-command record: keyed by the responder id it
      carries, the responder made available. */
  predicate ResponderRecord(r: Record) {
    r.envelope.invokingService == INVOKING_SERVICE
    && r.envelope.messageType == UPDATE_RESPONDER_COMMAND
    && r.envelope.body.ResponderBody?
    && r.key == r.envelope.body.responderId
    && r.envelope.body.available
  }

  class EventSink {
    var missionQueue: seq<Record>
    var responderQueue: seq<Record>

    predicate Valid()
      reads this
    {
      (forall i :: 0 <= i < |missionQueue| ==> MissionRecord(missionQueue[i]))
      && (forall i :: 0 <= i < |responderQueue| ==> ResponderRecord(responderQueue[i]))
    }

    constructor()
      ensures Valid() && missionQueue == [] && responderQueue == []
    {
      missionQueue := [];
      responderQueue := [];
    }

    /** Push the mission snapshot, keyed by its incident id, onto the
        mission-event queue. */
    method MissionEvent(mission: Mission, messageType: string, id: string, now: int)
      requires Valid()
      modifies this
      ensures Valid()
      ensures missionQueue == old(missionQueue) + [Record(mission.incidentId, InitMessage(id, now, messageType, MissionBody(mission)))]
      ensures responderQueue == old(responderQueue)
    {
      missionQueue := missionQueue + [Record(mission.incidentId, InitMessage(id, now, messageType, MissionBody(mission)))];
    }

    method MissionStarted(mission: Mission, id: string, now: int)
      requires Valid()
      modifies this
      ensures Valid()
      ensures missionQueue == old(missionQueue) + [Record(mission.incidentId, InitMessage(id, now, MISSION_STARTED, MissionBody(mission)))]
      ensures responderQueue == old(responderQueue)
    {
      MissionEvent(mission, MISSION_STARTED, id, now);
    }

    method MissionPickedUp(mission: Mission, id: string, now: int)
      requires Valid()
      modifies this
      ensures Valid()
      ensures missionQueue == old(missionQueue) + [Record(mission.incidentId, InitMessage(id, now, MISSION_PICKED_UP, MissionBody(mission)))]
      ensures responderQueue == old(responderQueue)
    {
      MissionEvent(mission, MISSION_PICKED_UP, id, now);
    }

    method MissionCompleted(mission: Mission, id: string, now: int)
      requires Valid()
      modifies this
      ensures Valid()
      ensures missionQueue == old(missionQueue) + [Record(mission.incidentId, InitMessage(id, now, MISSION_COMPLETED, MissionBody(mission)))]
      ensures responderQueue == old(responderQueue)
    {
      MissionEvent(mission, MISSION_COMPLETED, id, now);
    }

    /** Push an UpdateResponderCommand making the mission's responder
        available at (lat, lon), enrolled unless it is a person. */
    method ResponderCommand(mission: Mission, lat: Decimal, lon: Decimal, person: bool, id: string, now: int)
      requires Valid()
      modifies this
      ensures Valid()
      ensures responderQueue == old(responderQueue)
              + [Record(mission.responderId, InitMessage(id, now, UPDATE_RESPONDER_COMMAND,
                                                         ResponderBody(mission.responderId, lat, lon, true, !person)))]
      ensures missionQueue == old(missionQueue)
    {
      var body := ResponderBody(mission.responderId, lat, lon, true, !person);
      responderQueue := responderQueue + [Record(mission.responderId, InitMessage(id, now, UPDATE_RESPONDER_COMMAND, body))];
    }
  }

  /** A fresh sink given one mission-started event holds exactly one record,
      keyed by the incident id, carrying the mission. */
  method MissionStartedScenario(mission: Mission, id: string, now: int) returns (records: seq<Record>)
    ensures |records| == 1
    ensures records[0].key == mission.incidentId
    ensures records[0].envelope.messageType == MISSION_STARTED
    ensures records[0].envelope.invokingService == INVOKING_SERVICE
    ensures records[0].envelope.body == MissionBody(mission)
  {
    var sink := new EventSink();
    sink.MissionStarted(mission, id, now);
    records := sink.missionQueue;
  }
}
