/** Outdoor-suitability scoring of one forecast day, and the lookup of a date in the
    forecast's list of days (utils/weather_helper.py). */
module WeatherHelper {
  import opened Domain

  /** Heavy rain, heavy showers, heavy snow and thunderstorms. */
  const SevereCodes: seq<WeatherCode> :=
    [RainHeavy, RainShowerHeavy, SnowHeavy, Thunderstorm, ThunderstormHailLight, ThunderstormHailHeavy]

  /** Light or moderate rain, showers and drizzle. */
  const RainCodes: seq<WeatherCode> :=
    [RainLight, RainModerate, RainShowerLight, RainShowerModerate, DrizzleLight, DrizzleModerate]

  const FogCodes: seq<WeatherCode> := [Fog, DepositingRimeFog]

  /** The condition penalty: the first bracket that lists the code decides it. */
  function CodePenalty(c: WeatherCode): int
  {
    if c in SevereCodes then 80 else if c in RainCodes then 40 else if c in FogCodes then 20 else 0
  }

  /** One tier of the precipitation penalty (mm). */
  function PrecipitationPenalty(p: real): int
  {
    if p > 10.0 then 50 else if p > 5.0 then 30 else if p > 1.0 then 15 else 0
  }

  /** The daily-maximum chain: heat tiers first, then cold tiers; at most one applies. */
  function MaxTemperaturePenalty(tMax: real): int
  {
    if tMax >= 32.0 then 30 else if tMax >= 28.0 then 20 else if tMax <= 0.0 then 30 else if tMax <= 5.0 then 20 else 0
  }

  /** The daily-minimum chain, added independently of the maximum chain. */
  function MinTemperaturePenalty(tMin: real): int
  {
    if tMin <= -5.0 then 20 else if tMin <= 0.0 then 10 else 0
  }

  function Clamp(x: int): (r: int)
    ensures 0 <= r <= 100
    ensures 0 <= x <= 100 ==> r == x
    ensures x < 0 ==> r == 0
    ensures x > 100 ==> r == 100
  {
    if x < 0 then 0 else if x > 100 then 100 else x
  }

  /** The outdoor score: 100 less the four penalties, clamped to [0, 100]. */
  function OutdoorScore(w: DailyWeather): (s: int)
    ensures 0 <= s <= 100
  {
    Clamp(100 - CodePenalty(w.weatherCode) - PrecipitationPenalty(w.precipitationSum)
              - MaxTemperaturePenalty(w.tMax) - MinTemperaturePenalty(w.tMin))
  }

  /** calculate_outdoor_score: successive deductions from 100, then the clamp. */
  method CalculateOutdoorScore(w: DailyWeather) returns (score: int)
    ensures score == OutdoorScore(w)
    ensures 0 <= score <= 100
  {
    score := 100;
    var wc := w.weatherCode;
    if wc in SevereCodes {
      score := score - 80;
    } else if wc in RainCodes {
      score := score - 40;
    } else if wc in FogCodes {
      score := score - 20;
    }

    if w.precipitationSum > 10.0 {
      score := score - 50;
    } else if w.precipitationSum > 5.0 {
      score := score - 30;
    } else if w.precipitationSum > 1.0 {
      score := score - 15;
    }

    if w.tMax >= 32.0 {
      score := score - 30;
    } else if w.tMax >= 28.0 {
      score := score - 20;
    } else if w.tMax <= 0.0 {
      score := score - 30;
    } else if w.tMax <= 5.0 {
      score := score - 20;
    }

    if w.tMin <= -5.0 {
      score := score - 20;
    } else if w.tMin <= 0.0 {
      score := score - 10;
    }

    score := if score < 100 then score else 100;
    score := if 0 < score then score else 0;
  }

  /** The three condition brackets are pairwise disjoint, so the penalty of a code is
      80, 40 or 20 exactly when its bracket lists it, and 0 for every unlisted code. */
  lemma CodePenaltyBrackets(c: WeatherCode)
    ensures CodePenalty(c) == 80 <==> c in SevereCodes
    ensures CodePenalty(c) == 40 <==> c in RainCodes
    ensures CodePenalty(c) == 20 <==> c in FogCodes
    ensures CodePenalty(c) == 0 <==> (c !in SevereCodes && c !in RainCodes && c !in FogCodes)
    ensures !(c in SevereCodes && c in RainCodes) && !(c in SevereCodes && c in FogCodes) && !(c in RainCodes && c in FogCodes)
  {
  }

  /** Dense drizzle, moderate snow and overcast skies are in no bracket. */
  lemma UnlistedCodesCostNothing()
    ensures CodePenalty(DrizzleDense) == 0 && CodePenalty(SnowModerate) == 0 && CodePenalty(Overcast) == 0
  {
  }

  /** The precipitation tiers, with their boundaries: exactly 10 mm costs 30, exactly 5 mm 15,
      exactly 1 mm nothing. */
  lemma PrecipitationTiers(p: real)
    ensures PrecipitationPenalty(p) == 50 <==> p > 10.0
    ensures PrecipitationPenalty(p) == 30 <==> 5.0 < p <= 10.0
    ensures PrecipitationPenalty(p) == 15 <==> 1.0 < p <= 5.0
    ensures PrecipitationPenalty(p) == 0 <==> p <= 1.0
    ensures PrecipitationPenalty(10.0) == 30 && PrecipitationPenalty(5.0) == 15 && PrecipitationPenalty(1.0) == 0
  {
  }

  /** The maximum-temperature chain applies at most one tier. */
  lemma MaxTemperatureTiers(t: real)
    ensures MaxTemperaturePenalty(t) == 30 <==> (t >= 32.0 || t <= 0.0)
    ensures MaxTemperaturePenalty(t) == 20 <==> (28.0 <= t < 32.0 || 0.0 < t <= 5.0)
    ensures MaxTemperaturePenalty(t) == 0 <==> 5.0 < t < 28.0
  {
  }

  lemma MinTemperatureTiers(t: real)
    ensures MinTemperaturePenalty(t) == 20 <==> t <= -5.0
    ensures MinTemperaturePenalty(t) == 10 <==> -5.0 < t <= 0.0
    ensures MinTemperaturePenalty(t) == 0 <==> t > 0.0
  {
  }

  /** A severe-weather code caps the score at 20 whatever the other readings. */
  lemma SevereWeatherCapsScore(w: DailyWeather)
    requires w.weatherCode in SevereCodes
    ensures OutdoorScore(w) <= 20
  {
  }

  /** Every other reading fixed, more precipitation never raises the score. */
  lemma ScoreNonIncreasingInPrecipitation(w: DailyWeather, more: real)
    requires more >= w.precipitationSum
    ensures OutdoorScore(w.(precipitationSum := more)) <= OutdoorScore(w)
  {
  }

  /** A heavy-rain day with 15 mm scores 100 - 80 - 50, clamped to 0. */
  lemma HeavyRainDayScoresZero()
    ensures OutdoorScore(DailyWeather(RainHeavy, 10.0, 2.0, 15.0)) == 0
  {
  }

  /** A calendar date as `date.fromisoformat` produces it. */
  datatype Date = Date(year: int, month: int, day: int)

  datatype DateNotInForecast = DateNotInForecast(target: Date)

  /** The first position of the target date in the forecast's days, if any. */
  function DailyIndex(target: Date, days: seq<Date>): (r: Result<nat, DateNotInForecast>)
    ensures r.Success? ==> r.value < |days| && days[r.value] == target
    ensures r.Success? ==> forall j :: 0 <= j < r.value ==> days[j] != target
    ensures r.Failure? <==> target !in days
    ensures r.Failure? ==> r.error == DateNotInForecast(target)
  {
    if days == [] then Failure(DateNotInForecast(target))
    else if days[0] == target then Success(0)
    else match DailyIndex(target, days[1..])
      case Success(i) => Success(i + 1)
      case Failure(e) => Failure(e)
  }

  /** get_daily_index: scan the days in order and return at the first match,
      or fail with the ValueError's outcome. */
  method GetDailyIndex(target: Date, days: seq<Date>) returns (r: Result<nat, DateNotInForecast>)
    ensures r == DailyIndex(target, days)
  {
    var idx := 0;
    while idx < |days|
      invariant 0 <= idx <= |days|
      invariant forall j :: 0 <= j < idx ==> days[j] != target
    {
      if days[idx] == target {
        return Success(idx);
      }
      idx := idx + 1;
    }
    return Failure(DateNotInForecast(target));
  }
}
