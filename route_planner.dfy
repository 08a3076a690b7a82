/** The route planner: asks the directions service for a driving route
    (then a cycling one) from the responder through the incident to the
    destination, and turns the maneuvers of the first route into mission
    steps, with a three-step fallback when no route exists. */
module RoutePlanner {
  import opened Wrappers
  import opened Decimals
  import opened Text
  import opened Missions

  /** The maneuver of one route step: its location and its type. */
  datatype Maneuver = Maneuver(latitude: Decimal, longitude: Decimal, kind: Option<string>)

  /** A route leg with its (nullable) list of step maneuvers. */
  datatype Leg = Leg(steps: Option<seq<Maneuver>>)

  /** A route with its (nullable) list of legs. */
  datatype Route = Route(legs: Option<seq<Leg>>)

  /** The outcome of one call to the directions service: an I/O failure, an
      unsuccessful HTTP response, or a response whose body may be absent. */
  datatype ApiResponse =
    | IoFailure(ioMessage: string)
    | Unsuccessful(message: string)
    | Delivered(body: Option<seq<Route>>)

  datatype Profile = Driving | Cycling

  datatype RouteError = RoutePlannerException(message: string)

  /** The directions service, called with a profile and the origin,
      destination and way-point locations. */
  type DirectionsApi = (Profile, Location, Location, Location) -> ApiResponse

  /** `callMapBoxAPI`: an unsuccessful response or an I/O failure becomes a
      RoutePlannerException, otherwise the optional list of routes. */
  function CallApi(resp: ApiResponse): (r: Result<Option<seq<Route>>, RouteError>)
    ensures resp.Unsuccessful? ==> r == Err(RoutePlannerException("MapBoxAPI error: " + resp.message))
    ensures resp.IoFailure? ==> r == Err(RoutePlannerException(resp.ioMessage))
    ensures resp.Delivered? ==> r == Ok(resp.body)
  {
    match resp
    case IoFailure(msg) => Err(RoutePlannerException(msg))
    case Unsuccessful(msg) => Err(RoutePlannerException("MapBoxAPI error: " + msg))
    case Delivered(body) => Ok(body)
  }

  predicate HasRoutes(body: Option<seq<Route>>) {
    body.Some? && |body.value| > 0
  }

  function LegSteps(l: Leg): seq<Maneuver> {
    l.steps.GetOr([])
  }

  /** All step maneuvers of the legs, in order. */
  function Flatten(legs: seq<Leg>): seq<Maneuver> {
    if legs == [] then [] else Flatten(legs[..|legs| - 1]) + LegSteps(legs[|legs| - 1])
  }

  predicate IsArrive(m: Maneuver) {
    m.kind.Some? && EqualsIgnoreCase("arrive", m.kind.value)
  }

  predicate HasWayPoint(steps: seq<MissionStep>) {
    exists i :: 0 <= i < |steps| && steps[i].wayPoint
  }

  /** The step built for maneuver `m` when `prev` are the steps built so
      far: coordinates rounded to four decimals; an arrival is the way-point
      if none exists yet and the destination otherwise. */
  function StepFor(m: Maneuver, prev: seq<MissionStep>): MissionStep {
    MissionStep(Some(Round4(m.latitude)), Some(Round4(m.longitude)),
                IsArrive(m) && !HasWayPoint(prev), IsArrive(m) && HasWayPoint(prev))
  }

  /** The steps built from the maneuvers, one per maneuver. */
  function Classify(ms: seq<Maneuver>): (r: seq<MissionStep>)
    ensures |r| == |ms|
  {
    if ms == [] then [] else
      var prev := Classify(ms[..|ms| - 1]);
      prev + [StepFor(ms[|ms| - 1], prev)]
  }

  /** The steps of the first route. */
  function RouteSteps(routes: seq<Route>): seq<MissionStep>
    requires |routes| > 0
  {
    Classify(Flatten(routes[0].legs.GetOr([])))
  }

  function RoundedAt(l: Location, wayPoint: bool, destination: bool): MissionStep
    requires LocationComplete(l)
  {
    MissionStep(Some(Round4(l.latitude.value)), Some(Round4(l.longitude.value)), wayPoint, destination)
  }

  /** The minimal mission when neither profile finds a route: origin,
      way-point, destination. */
  function Fallback(origin: Location, destination: Location, waypoint: Location): (r: seq<MissionStep>)
    requires LocationComplete(origin) && LocationComplete(destination) && LocationComplete(waypoint)
    ensures |r| == 3 && !r[0].wayPoint && !r[0].destination
    ensures r[1].wayPoint && !r[1].destination && !r[2].wayPoint && r[2].destination
    ensures r[0].lat == Some(Round4(origin.latitude.value)) && r[0].lon == Some(Round4(origin.longitude.value))
    ensures r[1].lat == Some(Round4(waypoint.latitude.value)) && r[1].lon == Some(Round4(waypoint.longitude.value))
    ensures r[2].lat == Some(Round4(destination.latitude.value)) && r[2].lon == Some(Round4(destination.longitude.value))
  {
    [RoundedAt(origin, false, false), RoundedAt(waypoint, true, false), RoundedAt(destination, false, true)]
  }

  /** A step built for a complete location lies exactly at it when both
      coordinates have at most four decimals. */
  predicate ExactAt(step: MissionStep, l: Location)
    requires LocationComplete(l)
  {
    l.latitude.value.scale <= 4 && l.longitude.value.scale <= 4 ==>
      step.lat.Some? && step.lon.Some?
      && NumEq(step.lat.value, l.latitude.value) && NumEq(step.lon.value, l.longitude.value)
  }

  /** The fallback is the route a service would give whose only maneuvers
      are a departure from the origin, an arrival at the way-point and an
      arrival at the destination; for locations with at most four decimals
      its steps sit exactly at those locations. */
  lemma FallbackIsThreeStopRoute(origin: Location, destination: Location, waypoint: Location)
    requires LocationComplete(origin) && LocationComplete(destination) && LocationComplete(waypoint)
    ensures Fallback(origin, destination, waypoint)
            == Classify([Maneuver(origin.latitude.value, origin.longitude.value, None),
                         Maneuver(waypoint.latitude.value, waypoint.longitude.value, Some("arrive")),
                         Maneuver(destination.latitude.value, destination.longitude.value, Some("arrive"))])
    ensures var r := Fallback(origin, destination, waypoint);
            ExactAt(r[0], origin) && ExactAt(r[1], waypoint) && ExactAt(r[2], destination)
  {
    var ms := [Maneuver(origin.latitude.value, origin.longitude.value, None),
               Maneuver(waypoint.latitude.value, waypoint.longitude.value, Some("arrive")),
               Maneuver(destination.latitude.value, destination.longitude.value, Some("arrive"))];
    assert EqualsIgnoreCase("arrive", "arrive");
    assert ms[..2][..1] == ms[..1] && ms[..1][..0] == [];
    var c1 := Classify(ms[..1]);
    assert c1 == [StepFor(ms[0], [])];
    var c2 := Classify(ms[..2]);
    assert c2 == c1 + [StepFor(ms[1], c1)];
    assert !HasWayPoint(c1);
    assert c2[1].wayPoint;
    assert HasWayPoint(c2);
    assert Classify(ms) == c2 + [StepFor(ms[2], c2)];
    forall l | l in [origin, waypoint, destination]
      ensures l.latitude.value.scale <= 4 ==> NumEq(Round4(l.latitude.value), l.latitude.value)
      ensures l.longitude.value.scale <= 4 ==> NumEq(Round4(l.longitude.value), l.longitude.value)
    {
      if l.latitude.value.scale <= 4 { Round4IsExactUpToFourDecimals(l.latitude.value); }
      if l.longitude.value.scale <= 4 { Round4IsExactUpToFourDecimals(l.longitude.value); }
    }
  }

  /** `getDirectionsInternal` as a function of the service's answers. */
  function Directions(api: DirectionsApi, origin: Location, destination: Location, waypoint: Location)
    : Result<seq<MissionStep>, RouteError>
    requires LocationComplete(origin) && LocationComplete(destination) && LocationComplete(waypoint)
  {
    match CallApi(api(Driving, origin, destination, waypoint))
    case Err(e) => Err(e)
    case Ok(driving) =>
      if HasRoutes(driving) then Ok(RouteSteps(driving.value))
      else match CallApi(api(Cycling, origin, destination, waypoint))
        case Err(e) => Err(e)
        case Ok(cycling) =>
          if HasRoutes(cycling) then Ok(RouteSteps(cycling.value))
          else Ok(Fallback(origin, destination, waypoint))
  }

  // ----- properties of the classification -----

  predicate ArriveBefore(ms: seq<Maneuver>, k: int)
    requires 0 <= k <= |ms|
  {
    exists j :: 0 <= j < k && IsArrive(ms[j])
  }

  /** Classification reads the maneuvers left to right: a prefix of the
      maneuvers yields a prefix of the steps. */
  lemma {:induction false} ClassifyPrefix(ms: seq<Maneuver>, k: int)
    requires 0 <= k <= |ms|
    ensures Classify(ms[..k]) == Classify(ms)[..k]
    decreases |ms|
  {
    if k < |ms| {
      var init := ms[..|ms| - 1];
      ClassifyPrefix(init, k);
      assert init[..k] == ms[..k];
    } else {
      assert ms[..k] == ms;
    }
  }

  /** The prefix built before maneuver k holds a way-point exactly when an
      arrival occurs before k. */
  lemma {:induction false} WayPointSoFar(ms: seq<Maneuver>, k: int)
    requires 0 <= k <= |ms|
    ensures HasWayPoint(Classify(ms)[..k]) <==> ArriveBefore(ms, k)
    decreases k
  {
    if k > 0 {
      WayPointSoFar(ms, k - 1);
      var r := Classify(ms);
      ClassifyPrefix(ms, k);
      var pk := ms[..k];
      assert Classify(pk) == Classify(pk[..k - 1]) + [StepFor(pk[k - 1], Classify(pk[..k - 1]))];
      ClassifyPrefix(ms, k - 1);
      assert pk[..k - 1] == ms[..k - 1];
      assert r[..k] == r[..k - 1] + [r[k - 1]];
      assert r[k - 1] == StepFor(ms[k - 1], r[..k - 1]);
      if HasWayPoint(r[..k]) {
        var i :| 0 <= i < k && r[..k][i].wayPoint;
        if i == k - 1 {
          assert IsArrive(ms[k - 1]);
        } else {
          assert r[..k - 1][i].wayPoint;
        }
      }
      if ArriveBefore(ms, k) {
        var j :| 0 <= j < k && IsArrive(ms[j]);
        if !ArriveBefore(ms, k - 1) {
          assert j == k - 1;
          assert r[..k][k - 1].wayPoint;
        } else {
          var i :| 0 <= i < k - 1 && r[..k - 1][i].wayPoint;
          assert r[..k][i].wayPoint;
        }
      }
    }
  }

  /** The step at k, in terms of the maneuvers alone. */
  lemma StepAt(ms: seq<Maneuver>, k: int)
    requires 0 <= k < |ms|
    ensures var s := Classify(ms)[k];
            s.lat == Some(Round4(ms[k].latitude)) && s.lon == Some(Round4(ms[k].longitude))
            && (s.wayPoint <==> IsArrive(ms[k]) && !ArriveBefore(ms, k))
            && (s.destination <==> IsArrive(ms[k]) && ArriveBefore(ms, k))
  {
    var r := Classify(ms);
    ClassifyPrefix(ms, k + 1);
    var pk := ms[..k + 1];
    assert pk[..k] == ms[..k];
    ClassifyPrefix(ms, k);
    assert r[..k + 1][k] == r[k];
    WayPointSoFar(ms, k);
  }

  /** No step is both the way-point and the destination, and at most one
      step is the way-point: the first arrival. */
  lemma OneWayPoint(ms: seq<Maneuver>, i: int, j: int)
    requires 0 <= i < |ms| && 0 <= j < |ms|
    requires Classify(ms)[i].wayPoint && Classify(ms)[j].wayPoint
    ensures i == j && !Classify(ms)[i].destination
  {
    StepAt(ms, i);
    StepAt(ms, j);
  }

  /** Every destination step comes after the way-point step. */
  lemma DestinationFollowsWayPoint(ms: seq<Maneuver>, j: int)
    requires 0 <= j < |ms| && Classify(ms)[j].destination
    ensures HasWayPoint(Classify(ms)[..j])
  {
    StepAt(ms, j);
    WayPointSoFar(ms, j);
  }

  /** A route whose only arrivals are at i (the incident) and j (the
      destination) marks exactly those two steps, as the 22-step route of
      the planner's test does with indices 13 and 21. */
  lemma TwoArrivals(ms: seq<Maneuver>, i: int, j: int)
    requires 0 <= i < j < |ms|
    requires forall k :: 0 <= k < |ms| ==> (IsArrive(ms[k]) <==> k == i || k == j)
    ensures Classify(ms)[i].wayPoint && !Classify(ms)[i].destination
    ensures !Classify(ms)[j].wayPoint && Classify(ms)[j].destination
    ensures forall k :: 0 <= k < |ms| && k != i && k != j ==>
              !Classify(ms)[k].wayPoint && !Classify(ms)[k].destination
  {
    StepAt(ms, i);
    StepAt(ms, j);
    assert ArriveBefore(ms, j) by { assert IsArrive(ms[i]); }
    forall k | 0 <= k < |ms| && k != i && k != j
      ensures !Classify(ms)[k].wayPoint && !Classify(ms)[k].destination
    {
      StepAt(ms, k);
    }
  }

  /** When the driving profile answers with routes, the cycling profile is
      never asked and its steps are the driving route's. */
  lemma DrivingRouteWins(api: DirectionsApi, origin: Location, destination: Location, waypoint: Location)
    requires LocationComplete(origin) && LocationComplete(destination) && LocationComplete(waypoint)
    requires api(Driving, origin, destination, waypoint).Delivered?
    requires HasRoutes(api(Driving, origin, destination, waypoint).body)
    ensures Directions(api, origin, destination, waypoint)
            == Ok(RouteSteps(api(Driving, origin, destination, waypoint).body.value))
  {
  }

  /** The planner fails exactly when one of the calls it makes fails. */
  lemma DirectionsFailsIffCallFails(api: DirectionsApi, origin: Location, destination: Location, waypoint: Location)
    requires LocationComplete(origin) && LocationComplete(destination) && LocationComplete(waypoint)
    ensures var driving := api(Driving, origin, destination, waypoint);
            var cycling := api(Cycling, origin, destination, waypoint);
            Directions(api, origin, destination, waypoint).Err?
            <==> !driving.Delivered? || (!HasRoutes(driving.body) && !cycling.Delivered?)
  {
  }

  /** Neither profile finds a route: the fallback. */
  lemma NoRouteFallsBack(api: DirectionsApi, origin: Location, destination: Location, waypoint: Location)
    requires LocationComplete(origin) && LocationComplete(destination) && LocationComplete(waypoint)
    requires api(Driving, origin, destination, waypoint).Delivered?
    requires !HasRoutes(api(Driving, origin, destination, waypoint).body)
    requires api(Cycling, origin, destination, waypoint).Delivered?
    requires !HasRoutes(api(Cycling, origin, destination, waypoint).body)
    ensures Directions(api, origin, destination, waypoint) == Ok(Fallback(origin, destination, waypoint))
  {
  }

  // ----- the planner, step by step -----

  /** `missionSteps.stream().filter(MissionStep::isWayPoint).findFirst()` */
  method FindFirstWayPoint(steps: seq<MissionStep>) returns (found: Option<MissionStep>)
    ensures found.Some? <==> HasWayPoint(steps)
    ensures found.Some? ==> exists i :: 0 <= i < |steps| && steps[i] == found.value && steps[i].wayPoint
                                        && forall j :: 0 <= j < i ==> !steps[j].wayPoint
  {
    var k := 0;
    while k < |steps|
      invariant 0 <= k <= |steps|
      invariant forall j :: 0 <= j < k ==> !steps[j].wayPoint
    {
      if steps[k].wayPoint {
        return Some(steps[k]);
      }
      k := k + 1;
    }
    return None;
  }

  lemma ClassifySnoc(xs: seq<Maneuver>, m: Maneuver)
    ensures Classify(xs + [m]) == Classify(xs) + [StepFor(m, Classify(xs))]
  {
    assert (xs + [m])[..|xs|] == xs;
  }

  lemma FlattenSnoc(legs: seq<Leg>, i: int)
    requires 0 <= i < |legs|
    ensures Flatten(legs[..i + 1]) == Flatten(legs[..i]) + LegSteps(legs[i])
  {
    assert legs[..i + 1][..i] == legs[..i];
  }

  /** The body of the stream's `map`: build the step of one maneuver, the
      way-point flag decided by a search of the steps built so far. */
  method BuildStep(missionSteps: seq<MissionStep>, m: Maneuver) returns (step: MissionStep)
    ensures step == StepFor(m, missionSteps)
  {
    var builder := new StepBuilder(Some(Round4(m.latitude)), Some(Round4(m.longitude)));
    if IsArrive(m) {
      var first := FindFirstWayPoint(missionSteps);
      if first.None? {
        builder.WayPoint(true);
      } else {
        builder.Destination(true);
      }
    }
    step := builder.Build();
  }

  /** The stream over the legs of the first route: each step's maneuver is
      built into a mission step and appended. */
  method ClassifyLegs(legs: seq<Leg>) returns (missionSteps: seq<MissionStep>)
    ensures missionSteps == Classify(Flatten(legs))
  {
    missionSteps := [];
    var i := 0;
    while i < |legs|
      invariant 0 <= i <= |legs|
      invariant missionSteps == Classify(Flatten(legs[..i]))
    {
      var steps := LegSteps(legs[i]);
      ghost var before := Flatten(legs[..i]);
      var j := 0;
      assert before + steps[..0] == before;
      while j < |steps|
        invariant 0 <= j <= |steps|
        invariant missionSteps == Classify(before + steps[..j])
      {
        var step := BuildStep(missionSteps, steps[j]);
        ClassifySnoc(before + steps[..j], steps[j]);
        assert before + steps[..j + 1] == (before + steps[..j]) + [steps[j]];
        missionSteps := missionSteps + [step];
        j := j + 1;
      }
      assert steps[..j] == steps;
      FlattenSnoc(legs, i);
      i := i + 1;
    }
    assert legs[..i] == legs;
  }

  /** `getDirectionsInternal`; `profiles` lists the profiles asked, in order. */
  method GetDirections(api: DirectionsApi, origin: Location, destination: Location, waypoint: Location)
    returns (r: Result<seq<MissionStep>, RouteError>, profiles: seq<Profile>)
    requires LocationComplete(origin) && LocationComplete(destination) && LocationComplete(waypoint)
    ensures r == Directions(api, origin, destination, waypoint)
    ensures var driving := api(Driving, origin, destination, waypoint);
            profiles == if driving.Delivered? && !HasRoutes(driving.body) then [Driving, Cycling] else [Driving]
  {
    profiles := [Driving];
    var response := CallApi(api(Driving, origin, destination, waypoint));
    if response.Err? {
      return Err(response.error), profiles;
    }
    if !HasRoutes(response.value) {
      profiles := profiles + [Cycling];
      response := CallApi(api(Cycling, origin, destination, waypoint));
      if response.Err? {
        return Err(response.error), profiles;
      }
      if !HasRoutes(response.value) {
        return Ok(Fallback(origin, destination, waypoint)), profiles;
      }
    }
    var legs := response.value.value[0].legs.GetOr([]);
    var missionSteps := ClassifyLegs(legs);
    r := Ok(missionSteps);
  }
}
