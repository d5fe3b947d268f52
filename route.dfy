/** Round-trip travel times per transport mode (apis/route.py). The providers' decoded
    responses are inputs; None is a failed call (safe_get returned None). */
module Route {
  import opened Domain

  /** One route of the car-navigation response: its result code and, when the provider
      sent a summary, the one-way duration in seconds. */
  datatype CarRoute = CarRoute(resultCode: int, duration: Option<real>)
  datatype CarBody = CarBody(routes: seq<CarRoute>)

  /** The transit response. A missing or empty `result` or `info`, or a missing or null
      `totalTime`, is None; a missing or empty path list is the empty sequence. totalTime
      is one way, in minutes. */
  datatype PublicInfo = PublicInfo(totalTime: Option<real>)
  datatype PublicPath = PublicPath(info: Option<PublicInfo>)
  datatype PublicResult = PublicResult(path: seq<PublicPath>)
  datatype PublicBody = PublicBody(result: Option<PublicResult>)

  /** The exceptions the lookups raise: subscripting a failed car call, a car response
      without routes, a successful car route without a summary, `.get` on a failed
      transit call. */
  datatype RouteError = CarNoResponse | CarNoRoutes | CarNoSummary | PublicNoResponse

  /** get_round_trip_hours_by_car. */
  function CarRoundTripHours(res: Option<CarBody>): Result<real, RouteError>
  {
    if res.None? then Failure(CarNoResponse)
    else if res.value.routes == [] then Failure(CarNoRoutes)
    else
      var route := res.value.routes[0];
      if route.resultCode == 0 then
        if route.duration.None? then Failure(CarNoSummary)
        else Success(route.duration.value * 2.0 / 3600.0)
      else Success(1.0)
  }

  /** get_round_trip_hours_by_public. */
  function PublicRoundTripHours(res: Option<PublicBody>): Result<real, RouteError>
  {
    if res.None? then Failure(PublicNoResponse)
    else if res.value.result.None? then Success(1.0)
    else if res.value.result.value.path == [] then Success(1.0)
    else
      var best := res.value.result.value.path[0];
      if best.info.None? then Success(1.0)
      else if best.info.value.totalTime.None? then Success(1.0)
      else Success(best.info.value.totalTime.value * 2.0 / 60.0)
  }

  /** The car round trip: twice the first route's seconds, in hours, when its result code
      is 0; otherwise exactly one hour. */
  lemma CarRoundTripUnits(res: Option<CarBody>)
    requires res.Some? && res.value.routes != []
    ensures var route := res.value.routes[0];
            && (route.resultCode != 0 ==> CarRoundTripHours(res) == Success(1.0))
            && (route.resultCode == 0 && route.duration.Some? ==>
                  CarRoundTripHours(res).Success? && CarRoundTripHours(res).value * 1800.0 == route.duration.value)
            && (route.resultCode == 0 && route.duration.None? ==> CarRoundTripHours(res) == Failure(CarNoSummary))
  {
  }

  /** The transit round trip: one hour when any field on the way to totalTime is missing,
      otherwise twice the first path's minutes, in hours. Only a failed call is an error. */
  lemma PublicRoundTripUnits(res: Option<PublicBody>)
    ensures PublicRoundTripHours(res).Failure? <==> res.None?
    ensures res.Some? && !HasTotalTime(res.value) ==> PublicRoundTripHours(res) == Success(1.0)
    ensures res.Some? && HasTotalTime(res.value) ==>
              PublicRoundTripHours(res).value * 30.0 == res.value.result.value.path[0].info.value.totalTime.value
  {
  }

  predicate HasTotalTime(body: PublicBody)
  {
    && body.result.Some?
    && body.result.value.path != []
    && body.result.value.path[0].info.Some?
    && body.result.value.path[0].info.value.totalTime.Some?
  }

  /** Whether a mode is looked up: when it is the requested one, or when none was requested. */
  predicate Requested(transportation: Option<Transportation>, mode: Transportation)
  {
    transportation.None? || transportation.value == mode
  }

  /** get_round_trip_hours: both keys always present, a mode filled exactly when it is
      requested, with that mode's lookup. The car lookup runs first, so its error wins. */
  function RoundTrip(transportation: Option<Transportation>, car: Option<CarBody>, pub: Option<PublicBody>): (r: Result<RoundTripHours, RouteError>)
    ensures r.Success? ==> r.value.Keys == {Car, Public}
    ensures r.Success? ==> (r.value[Car].Some? <==> Requested(transportation, Car))
    ensures r.Success? ==> (r.value[Public].Some? <==> Requested(transportation, Public))
    ensures r.Success? && Requested(transportation, Car) ==> CarRoundTripHours(car) == Success(r.value[Car].value)
    ensures r.Success? && Requested(transportation, Public) ==> PublicRoundTripHours(pub) == Success(r.value[Public].value)
    ensures r.Failure? <==> (Requested(transportation, Car) && CarRoundTripHours(car).Failure?)
                            || (Requested(transportation, Public) && PublicRoundTripHours(pub).Failure?)
    ensures r.Failure? && Requested(transportation, Car) && CarRoundTripHours(car).Failure? ==> r.error == CarRoundTripHours(car).error
  {
    var carHours := if Requested(transportation, Car) then CarRoundTripHours(car) else Success(0.0);
    var pubHours := if Requested(transportation, Public) then PublicRoundTripHours(pub) else Success(0.0);
    if carHours.Failure? then Failure(carHours.error)
    else if pubHours.Failure? then Failure(pubHours.error)
    else Success(map[Car := if Requested(transportation, Car) then Some(carHours.value) else None,
                     Public := if Requested(transportation, Public) then Some(pubHours.value) else None])
  }

  /** The imperative original: start with both modes unset and fill the requested ones. */
  method GetRoundTripHours(transportation: Option<Transportation>, car: Option<CarBody>, pub: Option<PublicBody>)
    returns (r: Result<RoundTripHours, RouteError>)
    ensures r == RoundTrip(transportation, car, pub)
  {
    var result: RoundTripHours := map[Car := None, Public := None];
    if transportation == None || transportation == Some(Car) {
      var hours := CarRoundTripHours(car);
      if hours.Failure? {
        return Failure(hours.error);
      }
      result := result[Car := Some(hours.value)];
    }
    if transportation == None || transportation == Some(Public) {
      var hours := PublicRoundTripHours(pub);
      if hours.Failure? {
        return Failure(hours.error);
      }
      result := result[Public := Some(hours.value)];
    }
    ghost var expected := RoundTrip(transportation, car, pub);
    assert expected.Success?;
    assert result.Keys == expected.value.Keys;
    assert result[Car] == expected.value[Car];
    assert result[Public] == expected.value[Public];
    assert result == expected.value;
    return Success(result);
  }

  /** A successful lookup always has a time for at least one mode. */
  lemma RoundTripHasATime(transportation: Option<Transportation>, car: Option<CarBody>, pub: Option<PublicBody>)
    requires RoundTrip(transportation, car, pub).Success?
    ensures var m := RoundTrip(transportation, car, pub).value;
            m[Car].Some? || m[Public].Some?
  {
  }
}
