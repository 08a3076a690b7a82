/** The REST endpoints over the store: the current mission of a responder,
    and clearing the store. */
module RestApi {
  import opened Wrappers
  import opened Text
  import opened Missions
  import opened Repository

  datatype Content = Nothing | MissionContent(mission: Mission) | Text(text: string)

  datatype Response = Response(statusCode: int, content: Content)

  const CLEARED := "{\"result\":\"completed\"}"

  /** `status.equalsIgnoreCase("UPDATED") || status.equalsIgnoreCase("CREATED")` */
  predicate IsCurrentStatus(status: string) {
    EqualsIgnoreCase(status, "UPDATED") || EqualsIgnoreCase(status, "CREATED")
  }

  /** The stream's `filter(...).findFirst()`: the first mission with a
      current status. The filter reads missions in order and stops at the
      first match, so a mission without a status throws only when it comes
      before that match. */
  function FindCurrent(ms: seq<Mission>): (r: Result<Option<Mission>, QueryError>)
    ensures r.Ok? && r.value.Some? ==>
              exists i :: 0 <= i < |ms| && ms[i] == r.value.value
                          && ms[i].status.Some? && IsCurrentStatus(ms[i].status.value)
                          && forall j :: 0 <= j < i ==> ms[j].status.Some? && !IsCurrentStatus(ms[j].status.value)
    ensures r == Ok(None) <==>
              forall i :: 0 <= i < |ms| ==> ms[i].status.Some? && !IsCurrentStatus(ms[i].status.value)
    ensures r.Err? ==>
              exists i :: 0 <= i < |ms| && ms[i].status.None?
                          && forall j :: 0 <= j < i ==> ms[j].status.Some? && !IsCurrentStatus(ms[j].status.value)
  {
    if ms == [] then Ok(None)
    else if ms[0].status.None? then Err(NullPointer)
    else if IsCurrentStatus(ms[0].status.value) then Ok(Some(ms[0]))
    else
      var rest := FindCurrent(ms[1..]);
      assert forall i :: 0 <= i < |ms| - 1 ==> ms[1..][i] == ms[i + 1];
      rest
  }

  /** `missionByResponder`: 200 with the first current mission of the
      responder, 204 when there is none or no id was given; exactly when the
      query or the filter throws, no response is written (None). */
  function MissionByResponder(repository: MissionRepository, keys: seq<string>, id: Option<string>): (r: Option<Response>)
    reads repository
    requires Enumerates(repository.cache, keys)
    ensures id.None? ==> r == Some(Response(204, Nothing))
    ensures r.Some? && r.value.statusCode == 200 ==>
              r.value.content.MissionContent? && id.Some?
              && r.value.content.mission.responderId == id
              && r.value.content.mission.status.Some? && IsCurrentStatus(r.value.content.mission.status.value)
    ensures r.Some? ==> r.value.statusCode == 200 || r.value == Response(204, Nothing)
    ensures id.Some? ==>
              var q := repository.GetByResponderId(keys, id.value);
              (r.None? <==> q.Err? || FindCurrent(q.value).Err?)
              && (q.Ok? && FindCurrent(q.value) == Ok(None) ==> r == Some(Response(204, Nothing)))
              && (q.Ok? && FindCurrent(q.value).Ok? && FindCurrent(q.value).value.Some? ==>
                    r == Some(Response(200, MissionContent(FindCurrent(q.value).value.value))))
  {
    if id.None? then Some(Response(204, Nothing))
    else
      var missions := repository.GetByResponderId(keys, id.value);
      if missions.Err? then None
      else
        var current := FindCurrent(missions.value);
        if current.Err? then None
        else if current.value.Some? then Some(Response(200, MissionContent(current.value.value)))
        else Some(Response(204, Nothing))
  }

  /** When the responder's missions all have a status, the reply is 200
      exactly when one of them is current, with the first such mission. */
  lemma CurrentMissionIsFirstCurrent(ms: seq<Mission>, i: int)
    requires 0 <= i < |ms|
    requires forall j :: 0 <= j < |ms| ==> ms[j].status.Some?
    requires IsCurrentStatus(ms[i].status.value)
    requires forall j :: 0 <= j < i ==> !IsCurrentStatus(ms[j].status.value)
    ensures FindCurrent(ms) == Ok(Some(ms[i]))
  {
    var r := FindCurrent(ms);
    if r.Ok? && r.value.Some? {
      var k :| 0 <= k < |ms| && ms[k] == r.value.value && ms[k].status.Some? && IsCurrentStatus(ms[k].status.value)
               && forall j :: 0 <= j < k ==> ms[j].status.Some? && !IsCurrentStatus(ms[j].status.value);
      assert k == i;
    }
  }

  /** Status matching ignores case: "Created" and "updated" are current,
      "COMPLETED" is not. */
  lemma CurrentStatusIgnoresCase()
    ensures IsCurrentStatus("Created") && IsCurrentStatus("updated")
    ensures !IsCurrentStatus("COMPLETED")
  {
    assert LowerAscii('C') == 'c' && LowerAscii('U') == 'u';
    assert !EqualsIgnoreCase("COMPLETED", "CREATED");
  }

  /** A responder with one COMPLETED and one CREATED mission: the CREATED
      one is returned; with two COMPLETED missions, or none, nothing is. */
  lemma SelectionExamples(m1: Mission, m2: Mission)
    requires m1.status == Some("COMPLETED") && m2.status == Some("CREATED")
    ensures FindCurrent([m1, m2]) == Ok(Some(m2))
    ensures FindCurrent([m1, m1]) == Ok(None)
    ensures FindCurrent([]) == Ok(None)
  {
    CurrentStatusIgnoresCase();
    assert IsCurrentStatus("CREATED");
    CurrentMissionIsFirstCurrent([m1, m2], 1);
  }

  /** `clearAll`: empty the store, then reply 201 with the completion text. */
  method ClearAll(repository: MissionRepository) returns (r: Response)
    modifies repository
    ensures repository.cache == map[]
    ensures r == Response(201, Text(CLEARED))
  {
    repository.Clear();
    r := Response(201, Text(CLEARED));
  }
}
