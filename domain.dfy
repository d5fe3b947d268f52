/** Values and session objects shared by the day-trip candidate pipeline.
    The Python package declares these in domain/models.py and domain/enums.py;
    the shapes here follow how the core files use them. */
module Domain {

  datatype Option<+T> = None | Some(value: T) {
    function GetOr(default: T): T
    {
      match this
      case Some(v) => v
      case None => default
    }
  }

  datatype Result<+R, +E> = Success(value: R) | Failure(error: E)

  /** The WMO weather interpretation codes served by Open-Meteo, one constructor per
      enum member the core names. */
  datatype WeatherCode =
    | Clear | MainlyClear | PartlyCloudy | Overcast
    | Fog | DepositingRimeFog
    | DrizzleLight | DrizzleModerate | DrizzleDense
    | FreezingDrizzleLight | FreezingDrizzleDense
    | RainLight | RainModerate | RainHeavy
    | FreezingRainLight | FreezingRainHeavy
    | SnowLight | SnowModerate | SnowHeavy | SnowGrains
    | RainShowerLight | RainShowerModerate | RainShowerHeavy
    | SnowShowerLight | SnowShowerHeavy
    | Thunderstorm | ThunderstormHailLight | ThunderstormHailHeavy
  {
    /** The numeric WMO code of the member. */
    function Wmo(): int
    {
      match this
      case Clear => 0
      case MainlyClear => 1
      case PartlyCloudy => 2
      case Overcast => 3
      case Fog => 45
      case DepositingRimeFog => 48
      case DrizzleLight => 51
      case DrizzleModerate => 53
      case DrizzleDense => 55
      case FreezingDrizzleLight => 56
      case FreezingDrizzleDense => 57
      case RainLight => 61
      case RainModerate => 63
      case RainHeavy => 65
      case FreezingRainLight => 66
      case FreezingRainHeavy => 67
      case SnowLight => 71
      case SnowModerate => 73
      case SnowHeavy => 75
      case SnowGrains => 77
      case RainShowerLight => 80
      case RainShowerModerate => 81
      case RainShowerHeavy => 82
      case SnowShowerLight => 85
      case SnowShowerHeavy => 86
      case Thunderstorm => 95
      case ThunderstormHailLight => 96
      case ThunderstormHailHeavy => 99
    }
  }

  /** `WeatherCode(n)`: the member whose value is n; Python raises ValueError for any other n. */
  function WeatherCodeOf(n: int): (r: Option<WeatherCode>)
    ensures r.Some? ==> r.value.Wmo() == n
  {
    match n
    case 0 => Some(Clear)
    case 1 => Some(MainlyClear)
    case 2 => Some(PartlyCloudy)
    case 3 => Some(Overcast)
    case 45 => Some(Fog)
    case 48 => Some(DepositingRimeFog)
    case 51 => Some(DrizzleLight)
    case 53 => Some(DrizzleModerate)
    case 55 => Some(DrizzleDense)
    case 56 => Some(FreezingDrizzleLight)
    case 57 => Some(FreezingDrizzleDense)
    case 61 => Some(RainLight)
    case 63 => Some(RainModerate)
    case 65 => Some(RainHeavy)
    case 66 => Some(FreezingRainLight)
    case 67 => Some(FreezingRainHeavy)
    case 71 => Some(SnowLight)
    case 73 => Some(SnowModerate)
    case 75 => Some(SnowHeavy)
    case 77 => Some(SnowGrains)
    case 80 => Some(RainShowerLight)
    case 81 => Some(RainShowerModerate)
    case 82 => Some(RainShowerHeavy)
    case 85 => Some(SnowShowerLight)
    case 86 => Some(SnowShowerHeavy)
    case 95 => Some(Thunderstorm)
    case 96 => Some(ThunderstormHailLight)
    case 99 => Some(ThunderstormHailHeavy)
    case _ => None
  }

  /** Looking a member up by its own value gives the member back. */
  lemma WeatherCodeRoundTrip(c: WeatherCode)
    ensures WeatherCodeOf(c.Wmo()) == Some(c)
  {
  }

  /** One forecast day: WMO code, daily maximum and minimum (°C) and precipitation total (mm). */
  datatype DailyWeather = DailyWeather(weatherCode: WeatherCode, tMax: real, tMin: real, precipitationSum: real)

  datatype Transportation = Car | Public

  /** Round-trip hours per transport mode; a mode maps to None when it was not requested. */
  type RoundTripHours = map<Transportation, Option<real>>

  /** `round_trip_hours.get(mode)`: absent when the mode has no entry or no time. */
  function HoursBy(m: RoundTripHours, mode: Transportation): Option<real>
  {
    if mode in m then m[mode] else None
  }

  datatype PlaceCategory = TouristSpot | CultureFacility {
    /** The provider's category group code. */
    function Code(): string
    {
      match this
      case TouristSpot => "AT4"
      case CultureFacility => "CT1"
    }
  }

  /** A place returned by the point-of-interest search. */
  datatype PlaceInfo = PlaceInfo(id: string, placeName: string, roadAddressName: string, destLat: real, destLon: real)

  /** The travel request extracted from the user's message. */
  datatype ParsedUserInfo = ParsedUserInfo(
    origin: string,
    departureDatetime: string,
    maxTravelHours: real,
    transportation: Option<Transportation>,
    destinationCategories: seq<PlaceCategory>,
    likes: Option<seq<string>>,
    dislikes: Option<seq<string>>,
    mustInclude: Option<seq<string>>,
    mustAvoid: Option<seq<string>>)

  /** An enriched candidate. Everything is fixed at creation except `reason`,
      which the recommender writes on the shared object. */
  class DestinationCandidate {
    const placeInfo: PlaceInfo
    const roundTripHours: RoundTripHours
    const dailyWeather: DailyWeather
    const outdoorScore: int
    var reason: Option<string>

    constructor (placeInfo: PlaceInfo, roundTripHours: RoundTripHours, dailyWeather: DailyWeather, outdoorScore: int)
      ensures this.placeInfo == placeInfo && this.roundTripHours == roundTripHours
      ensures this.dailyWeather == dailyWeather && this.outdoorScore == outdoorScore
      ensures reason == None
    {
      this.placeInfo := placeInfo;
      this.roundTripHours := roundTripHours;
      this.dailyWeather := dailyWeather;
      this.outdoorScore := outdoorScore;
      reason := None;
    }
  }

  /** The conversation's session: the presented candidates and a cursor into them.
      The cursor is only ever reset to 0 or incremented, so it is a nat. */
  class ChatSessionState {
    var parsedUserInfo: Option<ParsedUserInfo>
    var candidates: seq<DestinationCandidate>
    var currentIndex: nat

    constructor ()
      ensures parsedUserInfo == None && candidates == [] && currentIndex == 0
    {
      parsedUserInfo := None;
      candidates := [];
      currentIndex := 0;
    }
  }
}
