/** Time budget to search radius (utils/distance_helper.py). */
module DistanceHelper {
  import opened Domain
  import Text

  /** Average speeds in km/h by lower-cased transport name. */
  const SpeedMap: map<string, real> :=
    map["car" := 60.0, "bus" := 40.0, "train" := 80.0, "bicycle" := 15.0, "walking" := 5.0, "public" := 22.0]

  const DefaultSpeed: real := 22.0
  /** Share of the budget spent moving. */
  const MoveShare: real := 0.45
  const SafetyFactor: real := 0.8
  const MinRadiusKm: real := 3.0

  /** `(transportation or "public").lower()`: a missing or empty name means public transport. */
  function SpeedKey(transportation: Option<string>): string
  {
    if transportation.None? || transportation.value == "" then "public" else Text.Lower(transportation.value)
  }

  function Speed(transportation: Option<string>): (v: real)
    ensures v > 0.0
  {
    var key := SpeedKey(transportation);
    if key in SpeedMap then SpeedMap[key] else DefaultSpeed
  }

  function RealMax(a: real, b: real): real
  {
    if a >= b then a else b
  }

  /** time_to_radius: metres the traveller can reach one way. */
  function TimeToRadius(hours: real, transportation: Option<string>): (radiusM: real)
    ensures radiusM >= 3000.0
  {
    var moveHours := RealMax(0.0, hours) * MoveShare;
    var oneWayKm := (Speed(transportation) * moveHours) / 2.0;
    var radiusKm := RealMax(MinRadiusKm, oneWayKm * SafetyFactor);
    radiusKm * 1000.0
  }

  /** The radius in closed form: 1000 * max(3, speed * max(0, hours) * 0.45 / 2 * 0.8). */
  lemma TimeToRadiusClosedForm(hours: real, transportation: Option<string>)
    ensures var h := if hours > 0.0 then hours else 0.0;
            var km := Speed(transportation) * h * 0.18;
            TimeToRadius(hours, transportation) == 1000.0 * (if km > 3.0 then km else 3.0)
  {
  }

  /** A budget of zero or less gives the 3 km floor. */
  lemma NoTimeGivesFloor(hours: real, transportation: Option<string>)
    requires hours <= 0.0
    ensures TimeToRadius(hours, transportation) == 3000.0
  {
  }

  /** Keys are lower-cased, so "CAR" travels at the car speed; None means public transport. */
  lemma SpeedLookup()
    ensures Speed(Some("CAR")) == 60.0
    ensures Speed(Some("car")) == 60.0
    ensures Speed(None) == 22.0
  {
    assert Text.Lower("CAR") == "car";
    assert Text.Lower("car") == "car";
  }

  /** Names outside the table travel at the default 22 km/h. */
  lemma UnknownKeyUsesDefault(transportation: Option<string>)
    requires SpeedKey(transportation) !in SpeedMap
    ensures Speed(transportation) == 22.0
  {
  }

  /** More time never shrinks the radius. */
  lemma TimeToRadiusMonotone(h1: real, h2: real, transportation: Option<string>)
    requires h1 <= h2
    ensures TimeToRadius(h1, transportation) <= TimeToRadius(h2, transportation)
  {
    var v := Speed(transportation);
    var a := RealMax(0.0, h1);
    var b := RealMax(0.0, h2);
    assert v * a <= v * b;
  }

  /** Four hours by car: 60 * 4 * 0.45 / 2 * 0.8 = 43.2 km. */
  lemma FourHoursByCar()
    ensures TimeToRadius(4.0, Some("car")) == 43200.0
  {
    SpeedLookup();
  }
}
