/** The mission aggregate and its value objects: `Mission`, `MissionStep`
    (with its builder), `Location`, `ResponderLocationHistory`. Java's nullable
    references are `Option`s. */
module Missions {
  import opened Wrappers
  import opened Decimals

  /** The coordinates handed to the route planner. */
  datatype Location = Location(latitude: Option<Decimal>, longitude: Option<Decimal>)

  predicate LocationComplete(l: Location) {
    l.latitude.Some? && l.longitude.Some?
  }

  /** One recorded position of the responder; `timestamp` is the epoch
      milliseconds at which the update was processed. */
  datatype ResponderLocationHistory = ResponderLocationHistory(lat: Decimal, lon: Decimal, timestamp: int)

  /** A point on the planned route. */
  datatype MissionStep = MissionStep(lat: Option<Decimal>, lon: Option<Decimal>, wayPoint: bool, destination: bool)

  /** `MissionStep.Builder`: wraps one step and sets its flags in place. */
  class StepBuilder {
    var step: MissionStep

    /** `MissionStep.builder(lat, lon)`: both flags start false. */
    constructor (lat: Option<Decimal>, lon: Option<Decimal>)
      ensures step == MissionStep(lat, lon, false, false)
    {
      step := MissionStep(lat, lon, false, false);
    }

    method WayPoint(b: bool)
      modifies this
      ensures step == old(step).(wayPoint := b)
    {
      step := step.(wayPoint := b);
    }

    method Destination(b: bool)
      modifies this
      ensures step == old(step).(destination := b)
    {
      step := step.(destination := b);
    }

    function Build(): MissionStep
      reads this
    {
      step
    }
  }

  // ----- MissionStep.equals -----

  /** `x != null && y != null && x.compareTo(y) == 0` */
  predicate SameNumber(x: Option<Decimal>, y: Option<Decimal>) {
    x.Some? && y.Some? && NumEq(x.value, y.value)
  }

  predicate BothNull(x: Option<Decimal>, y: Option<Decimal>) {
    x.None? && y.None?
  }

  /** `MissionStep.equals` exactly as written. Java's `&&` binds tighter than
      `||`, so the expression reads  A || (B && C) || (B && D && E)  with
      A = same lat, B = both lat null, C = same lon, D, E = same flags;
      the second null test also repeats `lat` where `lon` was meant. */
  predicate StepEqualsAsWritten(s: MissionStep, o: MissionStep) {
    SameNumber(s.lat, o.lat)
    || (BothNull(s.lat, o.lat) && SameNumber(s.lon, o.lon))
    || (BothNull(s.lat, o.lat) && o.destination == s.destination && o.wayPoint == s.wayPoint)
  }

  /** The evidently intended equality: same latitude (or both null), same
      longitude (or both null), same flags. */
  predicate StepEquals(s: MissionStep, o: MissionStep) {
    (SameNumber(s.lat, o.lat) || BothNull(s.lat, o.lat))
    && (SameNumber(s.lon, o.lon) || BothNull(s.lon, o.lon))
    && s.wayPoint == o.wayPoint && s.destination == o.destination
  }

  /** As written, a numerically equal non-null latitude decides equality on
      its own: longitude and flags are never looked at. */
  lemma StepEqualsAsWrittenOnlySeesLat(s: MissionStep, o: MissionStep)
    requires s.lat.Some? && o.lat.Some?
    ensures StepEqualsAsWritten(s, o) <==> NumEq(s.lat.value, o.lat.value)
  {
  }

  /** As written, two steps with null latitudes and equal flags are equal
      whatever their longitudes. */
  lemma StepEqualsAsWrittenNullLat(s: MissionStep, o: MissionStep)
    requires BothNull(s.lat, o.lat)
    requires s.wayPoint == o.wayPoint && s.destination == o.destination
    ensures StepEqualsAsWritten(s, o)
  {
  }

  lemma StepEqualsAsWrittenIsReflexiveAndSymmetric(s: MissionStep, o: MissionStep)
    ensures StepEqualsAsWritten(s, s)
    ensures StepEqualsAsWritten(s, o) <==> StepEqualsAsWritten(o, s)
  {
    NumEqIsReflexiveAndSymmetric(if s.lat.Some? then s.lat.value else Decimal(0, 0),
                                 if o.lat.Some? then o.lat.value else Decimal(0, 0));
    NumEqIsReflexiveAndSymmetric(if s.lon.Some? then s.lon.value else Decimal(0, 0),
                                 if o.lon.Some? then o.lon.value else Decimal(0, 0));
  }

  /** The as-written equality relates a way-point step to a destination step
      at another longitude, and it is not transitive. */
  lemma StepEqualsAsWrittenIsNotAnEquivalence()
    ensures var wp := MissionStep(Some(Decimal(1, 0)), Some(Decimal(2, 0)), true, false);
            var dest := MissionStep(Some(Decimal(1, 0)), Some(Decimal(3, 0)), false, true);
            StepEqualsAsWritten(wp, dest) && !StepEquals(wp, dest)
    ensures var a := MissionStep(None, Some(Decimal(1, 0)), true, false);
            var b := MissionStep(None, Some(Decimal(1, 0)), false, true);
            var c := MissionStep(None, Some(Decimal(2, 0)), false, true);
            StepEqualsAsWritten(a, b) && StepEqualsAsWritten(b, c) && !StepEqualsAsWritten(a, c)
  {
    assert Pow10(0) == 1;
  }

  /** The corrected equality is an equivalence relation. */
  lemma StepEqualsIsEquivalence(a: MissionStep, b: MissionStep, c: MissionStep)
    ensures StepEquals(a, a)
    ensures StepEquals(a, b) ==> StepEquals(b, a)
    ensures StepEquals(a, b) && StepEquals(b, c) ==> StepEquals(a, c)
  {
    var z := Decimal(0, 0);
    NumEqIsReflexiveAndSymmetric(a.lat.GetOr(z), b.lat.GetOr(z));
    NumEqIsReflexiveAndSymmetric(a.lon.GetOr(z), b.lon.GetOr(z));
    if StepEquals(a, b) && StepEquals(b, c) {
      if a.lat.Some? { NumEqIsTransitive(a.lat.value, b.lat.value, c.lat.value); }
      if a.lon.Some? { NumEqIsTransitive(a.lon.value, b.lon.value, c.lon.value); }
    }
  }

  /** Whatever the corrected equality relates, the as-written one relates too. */
  lemma StepEqualsAsWrittenIsWeaker(s: MissionStep, o: MissionStep)
    requires StepEquals(s, o)
    ensures StepEqualsAsWritten(s, o)
  {
  }

  // ----- Mission -----

  datatype MissionStatus = Created | Updated | Completed {
    /** `MissionStatus.name()`, the text stored in `Mission.status`. */
    function Name(): string {
      match this
      case Created => "CREATED"
      case Updated => "UPDATED"
      case Completed => "COMPLETED"
    }
  }

  datatype Mission = Mission(
    id: Option<string>,
    incidentId: Option<string>,
    responderId: Option<string>,
    responderStartLat: Option<Decimal>,
    responderStartLong: Option<Decimal>,
    incidentLat: Option<Decimal>,
    incidentLong: Option<Decimal>,
    destinationLat: Option<Decimal>,
    destinationLong: Option<Decimal>,
    responderLocationHistory: seq<ResponderLocationHistory>,
    status: Option<string>,
    steps: seq<MissionStep>)

  /** The no-argument constructor; `uuid` stands for `UUID.randomUUID()`. */
  function NewMission(uuid: string): (m: Mission)
    ensures m.steps == [] && m.responderLocationHistory == []
    ensures m.id == Some(uuid) && m.status == None
    ensures m.incidentId == None && m.responderId == None
  {
    Mission(Some(uuid), None, None, None, None, None, None, None, None, [], None, [])
  }

  /** A mission as a JSON object carries it: each property is present or not;
      absent properties keep the constructor's defaults. */
  datatype MissionJson = MissionJson(
    id: Option<string>,
    incidentId: Option<string>,
    responderId: Option<string>,
    responderStartLat: Option<Decimal>,
    responderStartLong: Option<Decimal>,
    incidentLat: Option<Decimal>,
    incidentLong: Option<Decimal>,
    destinationLat: Option<Decimal>,
    destinationLong: Option<Decimal>,
    responderLocationHistory: Option<seq<ResponderLocationHistory>>,
    status: Option<string>,
    steps: Option<seq<MissionStep>>)

  /** A message payload: text that is not JSON, or a JSON document. */
  datatype Payload<T> = Malformed | Json(doc: T)

  /** `json.mapTo(Mission.class)`: construct, then overwrite with every
      property the document has. */
  function MapTo(j: MissionJson, uuid: string): (m: Mission)
    ensures j.id.None? ==> m.id == Some(uuid)
    ensures j.steps.None? ==> m.steps == []
    ensures j.responderLocationHistory.None? ==> m.responderLocationHistory == []
    ensures m.incidentId == j.incidentId && m.responderId == j.responderId
  {
    var m := NewMission(uuid);
    Mission(
      if j.id.Some? then j.id else m.id,
      j.incidentId, j.responderId,
      j.responderStartLat, j.responderStartLong,
      j.incidentLat, j.incidentLong,
      j.destinationLat, j.destinationLong,
      j.responderLocationHistory.GetOr(m.responderLocationHistory),
      j.status,
      j.steps.GetOr(m.steps))
  }

  /** `toJson`: the document a mission is written as, every property present. */
  function ToJson(m: Mission): MissionJson {
    MissionJson(m.id, m.incidentId, m.responderId,
                m.responderStartLat, m.responderStartLong,
                m.incidentLat, m.incidentLong,
                m.destinationLat, m.destinationLong,
                Some(m.responderLocationHistory), m.status, Some(m.steps))
  }

  /** Decoding the document a mission is written as gives the mission back,
      whatever id a fresh mission would draw; every decoded mission has an
      id, so every decoded mission survives being written and read again. */
  lemma MapToInvertsToJson(m: Mission, j: MissionJson, uuid: string, uuid': string)
    requires m.id.Some?
    ensures MapTo(ToJson(m), uuid) == m
    ensures MapTo(ToJson(MapTo(j, uuid)), uuid') == MapTo(j, uuid)
  {
  }

  /** A document without any property decodes to a fresh mission. */
  lemma EmptyDocumentIsNewMission(uuid: string)
    ensures MapTo(MissionJson(None, None, None, None, None, None, None, None, None, None, None, None), uuid)
            == NewMission(uuid)
  {
  }

  /** Java string concatenation of a possibly null `String`. */
  function JavaString(s: Option<string>): string {
    if s.Some? then s.value else "null"
  }

  /** `getKey`: the store key "incidentId:responderId". */
  function GetKey(m: Mission): string {
    JavaString(m.incidentId) + ":" + JavaString(m.responderId)
  }

  /** `equals`: the pair (responderId, incidentId) alone decides. */
  predicate MissionEquals(a: Mission, b: Mission) {
    a.responderId == b.responderId && a.incidentId == b.incidentId
  }

  function ResponderLocation(m: Mission): Location {
    Location(m.responderStartLat, m.responderStartLong)
  }

  function IncidentLocation(m: Mission): Location {
    Location(m.incidentLat, m.incidentLong)
  }

  function DestinationLocation(m: Mission): Location {
    Location(m.destinationLat, m.destinationLong)
  }

  /** `status(...)`: sets the status to the enum constant's name. */
  function WithStatus(m: Mission, s: MissionStatus): (r: Mission)
    ensures r.status == Some(s.Name())
    ensures r == m.(status := r.status)
  {
    m.(status := Some(s.Name()))
  }

  // ----- hashCode -----

  /** A Java `int` result: x reduced into [-2^31, 2^31). */
  function Int32(x: int): (r: int)
    ensures -0x8000_0000 <= r < 0x8000_0000
    ensures (x - r) % 0x1_0000_0000 == 0
  {
    (x + 0x8000_0000) % 0x1_0000_0000 - 0x8000_0000
  }

  /** The UTF-16 code units Java stores for one code point. */
  function Utf16(c: char): seq<int> {
    var n := c as int;
    if n < 0x1_0000 then [n]
    else [0xD800 + (n - 0x1_0000) / 0x400, 0xDC00 + (n - 0x1_0000) % 0x400]
  }

  function Utf16Units(s: string): seq<int> {
    if s == [] then [] else Utf16Units(s[..|s| - 1]) + Utf16(s[|s| - 1])
  }

  /** `String.hashCode`: h = 31 * h + u over the UTF-16 units, in
      wrap-around `int` arithmetic. */
  function HashUnits(us: seq<int>): int {
    if us == [] then 0 else Int32(31 * HashUnits(us[..|us| - 1]) + us[|us| - 1])
  }

  /** `hashCode`: `Objects.hash(getKey())`, which is 31 + the key's hash. */
  function HashCode(m: Mission): (h: int)
    ensures -0x8000_0000 <= h < 0x8000_0000
  {
    Int32(31 + HashUnits(Utf16Units(GetKey(m))))
  }

  /** Changing the status keeps the mission's identity (its key, hash code
      and equality), and only the last status set counts. */
  lemma WithStatusKeepsIdentity(m: Mission, s: MissionStatus, t: MissionStatus)
    ensures GetKey(WithStatus(m, s)) == GetKey(m) && HashCode(WithStatus(m, s)) == HashCode(m)
    ensures MissionEquals(WithStatus(m, s), m)
    ensures WithStatus(WithStatus(m, s), t) == WithStatus(m, t)
  {
  }

  lemma MissionEqualsIsEquivalence(a: Mission, b: Mission, c: Mission)
    ensures MissionEquals(a, a)
    ensures MissionEquals(a, b) ==> MissionEquals(b, a)
    ensures MissionEquals(a, b) && MissionEquals(b, c) ==> MissionEquals(a, c)
  {
  }

  /** Equal missions have equal keys, hence equal hash codes, whatever their
      other fields. */
  lemma EqualMissionsShareKeyAndHash(a: Mission, b: Mission)
    requires MissionEquals(a, b)
    ensures GetKey(a) == GetKey(b) && HashCode(a) == HashCode(b)
  {
  }

  /** Splitting "x:y" at its first ':' recovers x and y when x has no ':'. */
  lemma {:induction false} SplitAtFirstColon(x: string, y: string, x': string, y': string)
    requires ':' !in x && ':' !in x'
    requires x + ":" + y == x' + ":" + y'
    ensures x == x' && y == y'
  {
    var s := x + ":" + y;
    // Both |x| and |x'| index the first ':' of s.
    assert s[|x|] == ':' && s[|x'|] == ':';
    assert forall i :: 0 <= i < |x| ==> s[i] == x[i] && s[i] != ':';
    assert forall i :: 0 <= i < |x'| ==> s[i] == x'[i] && s[i] != ':';
    assert x == s[..|x|] == x';
    assert y == s[|x| + 1..] == y';
  }

  /** For non-null ids whose incident id has no ':', the key identifies the
      mission exactly as `equals` does. */
  lemma KeyIdentifiesMission(a: Mission, b: Mission)
    requires a.incidentId.Some? && a.responderId.Some?
    requires b.incidentId.Some? && b.responderId.Some?
    requires ':' !in a.incidentId.value && ':' !in b.incidentId.value
    ensures GetKey(a) == GetKey(b) <==> MissionEquals(a, b)
  {
    if GetKey(a) == GetKey(b) {
      SplitAtFirstColon(a.incidentId.value, a.responderId.value, b.incidentId.value, b.responderId.value);
    }
  }

  /** Without that restriction two missions that are not equal can share a
      key, and so one store entry. */
  lemma KeysCanCollide()
    ensures var a := NewMission("1").(incidentId := Some("i:1"), responderId := Some("r"));
            var b := NewMission("2").(incidentId := Some("i"), responderId := Some("1:r"));
            GetKey(a) == GetKey(b) && !MissionEquals(a, b)
  {
  }
}
