/** The responder-location consumer: a location update on a mission appends
    a history entry to the stored mission, moves it to UPDATED when the
    responder picked the victim up and to COMPLETED when it dropped them
    off, announces those two transitions, and writes the mission back. */
module LocationUpdate {
  import opened Wrappers
  import opened Decimals
  import opened Text
  import opened Missions
  import opened Repository
  import opened Events

  /** `ResponderLocationStatus.PICKEDUP.name()` and `DROPPED.name()`. */
  const PICKEDUP := "PICKEDUP"
  const DROPPED := "DROPPED"

  /** The properties of a location-update document the consumer reads. */
  datatype LocationJson = LocationJson(
    responderId: Option<string>,
    missionId: Option<string>,
    incidentId: Option<string>,
    status: Option<string>,
    lat: Option<Decimal>,
    lon: Option<Decimal>,
    human: Option<bool>,
    continueFlag: Option<bool>)

  /** `getLocationUpdate`: the document, if the text is JSON with the three
      ids and the status present and not blank, and lat, lon, human and
      continue present. */
  function GetLocationUpdate(payload: Payload<LocationJson>): (r: Option<LocationJson>)
    ensures r.Some? <==> (payload.Json?
                          && PresentText(payload.doc.responderId) && PresentText(payload.doc.missionId)
                          && PresentText(payload.doc.incidentId) && PresentText(payload.doc.status)
                          && payload.doc.lat.Some? && payload.doc.lon.Some?
                          && payload.doc.human.Some? && payload.doc.continueFlag.Some?)
    ensures r.Some? ==> r.value == payload.doc
  {
    match payload
    case Malformed => None
    case Json(j) =>
      if j.responderId.None? || IsBlank(j.responderId.value)
         || j.missionId.None? || IsBlank(j.missionId.value)
         || j.incidentId.None? || IsBlank(j.incidentId.value)
         || j.status.None? || IsBlank(j.status.value)
         || j.lat.None? || j.lon.None?
         || j.human.None? || j.continueFlag.None?
      then None
      else Some(j)
  }

  /** `getKey`: "incidentId:responderId" of the update. */
  function UpdateKey(u: LocationJson): string {
    JavaString(u.incidentId) + ":" + JavaString(u.responderId)
  }

  /** The update looks up the mission of its incident and responder: its
      key is the one the mission is stored under. */
  lemma UpdateKeyIsMissionKey(u: LocationJson, m: Mission)
    requires u.incidentId == m.incidentId && u.responderId == m.responderId
    ensures UpdateKey(u) == Missions.GetKey(m)
  {
  }

  /** The status change and the event type of `emitMissionEvent`. */
  function Transition(status: string): Option<(MissionStatus, string)> {
    if status == PICKEDUP then Some((Updated, MISSION_PICKED_UP))
    else if status == DROPPED then Some((Completed, MISSION_COMPLETED))
    else None
  }

  /** The found mission after the update: one history entry appended and
      the status moved by the transition, if any. */
  function AfterUpdate(m: Mission, u: LocationJson, now: int): (r: Mission)
    requires u.lat.Some? && u.lon.Some? && u.status.Some?
  {
    var withHistory := m.(responderLocationHistory := m.responderLocationHistory + [ResponderLocationHistory(u.lat.value, u.lon.value, now)]);
    var t := Transition(u.status.value);
    if t.Some? then WithStatus(withHistory, t.value.0) else withHistory
  }

  /** The history grows by exactly the update's position and time, after
      the entries it had. */
  lemma HistoryGrowsByOne(m: Mission, u: LocationJson, now: int)
    requires u.lat.Some? && u.lon.Some? && u.status.Some?
    ensures var r := AfterUpdate(m, u, now);
            |r.responderLocationHistory| == |m.responderLocationHistory| + 1
            && r.responderLocationHistory[..|m.responderLocationHistory|] == m.responderLocationHistory
            && r.responderLocationHistory[|m.responderLocationHistory|] == ResponderLocationHistory(u.lat.value, u.lon.value, now)
  {
    var r := AfterUpdate(m, u, now);
    assert r.responderLocationHistory == m.responderLocationHistory + [ResponderLocationHistory(u.lat.value, u.lon.value, now)];
  }

  /** PICKEDUP makes the mission UPDATED, DROPPED makes it COMPLETED, any
      other status leaves the status alone; nothing else but the history
      changes, and the mission stays the same mission. */
  lemma StatusTransitions(m: Mission, u: LocationJson, now: int)
    requires u.lat.Some? && u.lon.Some? && u.status.Some?
    ensures var r := AfterUpdate(m, u, now);
            (u.status.value == PICKEDUP ==> r.status == Some("UPDATED"))
            && (u.status.value == DROPPED ==> r.status == Some("COMPLETED"))
            && (u.status.value != PICKEDUP && u.status.value != DROPPED ==> r.status == m.status)
            && r.steps == m.steps && MissionEquals(r, m) && Missions.GetKey(r) == Missions.GetKey(m)
  {
  }

  /** Exactly the two transitions announce an event. */
  lemma TransitionAnnounces(status: string)
    ensures Transition(status).Some? <==> status == PICKEDUP || status == DROPPED
    ensures Transition(status) == Some((Updated, MISSION_PICKED_UP)) <==> status == PICKEDUP
    ensures Transition(status) == Some((Completed, MISSION_COMPLETED)) <==> status == DROPPED
  {
  }

  class ResponderUpdateLocationSource {
    const repository: MissionRepository
    const eventSink: EventSink

    constructor(repository: MissionRepository, eventSink: EventSink)
      ensures this.repository == repository && this.eventSink == eventSink
    {
      this.repository := repository;
      this.eventSink := eventSink;
    }

    /** `process`. `now` is the clock, `eventId` the envelope id, `emitOk`
        and `storeOk` whether the event publish and the store write succeed.
        A failing publish or write is not recovered: the message is left
        unacknowledged. */
    method Process(payload: Payload<LocationJson>, now: int, eventId: string, emitOk: bool, storeOk: bool)
      returns (acked: bool)
      requires eventSink.Valid()
      modifies repository, eventSink
      ensures eventSink.Valid()
      ensures eventSink.responderQueue == old(eventSink.responderQueue)
      ensures var u := GetLocationUpdate(payload);
              var found := if u.Some? then old(repository.Get(UpdateKey(u.value))) else None;
              if found.None? then
                acked && repository.cache == old(repository.cache) && eventSink.missionQueue == old(eventSink.missionQueue)
              else
                var m := AfterUpdate(found.value, u.value, now);
                var t := Transition(u.value.status.value);
                var emitted := t.None? || emitOk;
                (t.Some? && emitOk ==>
                   eventSink.missionQueue == old(eventSink.missionQueue)
                     + [Record(m.incidentId, InitMessage(eventId, now, t.value.1, MissionBody(m)))])
                && (t.None? || !emitOk ==> eventSink.missionQueue == old(eventSink.missionQueue))
                && (emitted && storeOk ==> repository.cache == old(repository.cache)[Missions.GetKey(m) := Stored(m)])
                && (!(emitted && storeOk) ==> repository.cache == old(repository.cache))
                && (acked <==> emitted && storeOk)
    {
      var u := GetLocationUpdate(payload);
      if u.None? {
        return true;
      }
      var update := u.value;
      var mission := repository.Get(UpdateKey(update));
      if mission.None? {
        return true;
      }
      var m := mission.value;
      var entry := ResponderLocationHistory(update.lat.value, update.lon.value, now);
      m := m.(responderLocationHistory := m.responderLocationHistory + [entry]);
      var status := update.status.value;
      if status == PICKEDUP {
        m := WithStatus(m, Updated);
        if !emitOk {
          return false;
        }
        eventSink.MissionPickedUp(m, eventId, now);
      } else if status == DROPPED {
        m := WithStatus(m, Completed);
        if !emitOk {
          return false;
        }
        eventSink.MissionCompleted(m, eventId, now);
      }
      if !storeOk {
        return false;
      }
      repository.Add(m);
      acked := true;
    }
  }
}
