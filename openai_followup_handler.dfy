/** Answers a follow-up question about the destination last shown
    (apis/openai_followup_handler.py): the sections the question asks for, chosen by
    keywords, in a fixed order. Numbers are kept as values; their one-decimal rendering
    is not part of this model. */
module OpenAiFollowupHandler {
  import opened Domain
  import opened Text
  import opened Seqs

  const NoCandidateText: string := "아직 소개해 드린 여행지가 없어 추가 설명을 드리기 어렵습니다. 먼저 여행 조건을 알려주세요."
  const NoReasonText: string := "추천 이유 정보가 없습니다."
  const NoAddressText: string := "상세 주소 정보가 없습니다."
  const NoWeatherLabel: string := "날씨 정보 없음"

  const ReasonKeywords: seq<string> := ["이유", "추천", "특징", "설명"]
  const TimeKeywords: seq<string> := ["시간", "거리", "몇시간", "걸리", "이동"]
  const WeatherKeywords: seq<string> := ["날씨", "비", "기온", "온도"]
  const AddressKeywords: seq<string> := ["주소", "어디", "위치"]
  const ScoreKeywords: seq<string> := ["점수", "야외", "컨디션"]

  /** One part of the travel-time sentence. */
  datatype TravelPart = ByCar(hours: real) | ByPublic(hours: real)

  /** The travel-time sentence: the "no information yet" text, or the parts joined by ", ". */
  datatype TravelTimeText = NoTravelTimeInfo | TravelTimes(parts: seq<TravelPart>)

  /** One line of the answer. */
  datatype Line =
    | Intro(name: string)
    | ReasonLine(reason: string)
    | TravelLine(text: TravelTimeText)
    | WeatherLine(weatherLabel: string, tMax: real, tMin: real, precipitationSum: real)
    | AddressLine(address: string)
    | ScoreLine(score: int)
    | Hint

  /** The answer: the fixed "nothing shown yet" message, or the lines joined by newlines. */
  datatype FollowUp = NoCandidateYet | Reply(lines: seq<Line>)

  /** The candidate shown last: the one before the cursor, or the last one when the cursor
      has run past the end; none before anything was shown. */
  function LastPresented(state: ChatSessionState): (r: Option<DestinationCandidate>)
    reads state
    ensures r.None? <==> state.candidates == [] || state.currentIndex == 0
    ensures r.Some? ==> r.value in state.candidates
    ensures r.Some? && state.currentIndex <= |state.candidates| ==> r.value == state.candidates[state.currentIndex - 1]
    ensures r.Some? && state.currentIndex > |state.candidates| ==> r.value == state.candidates[|state.candidates| - 1]
  {
    if state.candidates == [] then None
    else
      var lastIndex := state.currentIndex - 1;
      if lastIndex < 0 then None
      else if lastIndex >= |state.candidates| then Some(state.candidates[|state.candidates| - 1])
      else Some(state.candidates[lastIndex])
  }

  /** The travel-time sentence of a round-trip map: no information exactly when neither
      mode has a time; otherwise the car part (if any) and then the public part (if any). */
  function RoundTripText(m: RoundTripHours): (t: TravelTimeText)
    ensures t.NoTravelTimeInfo? <==> HoursBy(m, Car).None? && HoursBy(m, Public).None?
    ensures t.TravelTimes? ==> 1 <= |t.parts| <= 2
    ensures t.TravelTimes? ==> t.parts[0] == if HoursBy(m, Car).Some? then ByCar(HoursBy(m, Car).value) else ByPublic(HoursBy(m, Public).value)
    ensures t.TravelTimes? ==> (|t.parts| == 2 <==> HoursBy(m, Car).Some? && HoursBy(m, Public).Some?)
    ensures t.TravelTimes? && |t.parts| == 2 ==> t.parts[1] == ByPublic(HoursBy(m, Public).value)
  {
    var carPart := if HoursBy(m, Car).Some? then [ByCar(HoursBy(m, Car).value)] else [];
    var publicPart := if HoursBy(m, Public).Some? then [ByPublic(HoursBy(m, Public).value)] else [];
    if carPart + publicPart == [] then NoTravelTimeInfo else TravelTimes(carPart + publicPart)
  }

  /** _format_round_trip_hours, appending the parts one by one. */
  method FormatRoundTripHours(rth: RoundTripHours) returns (t: TravelTimeText)
    ensures t == RoundTripText(rth)
  {
    var parts: seq<TravelPart> := [];
    var car := HoursBy(rth, Car);
    if car.Some? {
      parts := parts + [ByCar(car.value)];
    }
    var pub := HoursBy(rth, Public);
    if pub.Some? {
      parts := parts + [ByPublic(pub.value)];
    }
    if parts == [] {
      return NoTravelTimeInfo;
    }
    return TravelTimes(parts);
  }

  const WeatherLabels: map<WeatherCode, string> := map[
    Clear := "맑음",
    MainlyClear := "대체로 맑음",
    PartlyCloudy := "부분적으로 흐림",
    Overcast := "흐림",
    Fog := "안개",
    DepositingRimeFog := "서리가 끼는 안개",
    DrizzleLight := "약한 이슬비",
    DrizzleModerate := "보통 이슬비",
    DrizzleDense := "강한 이슬비",
    FreezingDrizzleLight := "약한 빙설비",
    FreezingDrizzleDense := "강한 빙설비",
    RainLight := "약한 비",
    RainModerate := "보통 비",
    RainHeavy := "강한 비",
    FreezingRainLight := "약한 어는 비",
    FreezingRainHeavy := "강한 어는 비",
    SnowLight := "약한 눈",
    SnowModerate := "보통 눈",
    SnowHeavy := "강한 눈",
    SnowGrains := "싸락눈",
    RainShowerLight := "약한 소나기",
    RainShowerModerate := "보통 소나기",
    RainShowerHeavy := "강한 소나기",
    SnowShowerLight := "가벼운 소낙눈",
    SnowShowerHeavy := "강한 소낙눈",
    Thunderstorm := "뇌우",
    ThunderstormHailLight := "약한 우박 동반 뇌우",
    ThunderstormHailHeavy := "강한 우박 동반 뇌우"
  ]

  /** _weather_label: the table's label, or the "no weather information" text for a code
      missing from it. Every code has a label, so the fallback is never produced. */
  function WeatherLabel(code: WeatherCode): (text: string)
    ensures code in WeatherLabels && text == WeatherLabels[code]
    ensures text != NoWeatherLabel
    ensures text != ""
  {
    AllCodesLabelled(code);
    if code in WeatherLabels then WeatherLabels[code] else NoWeatherLabel
  }

  /** The label table covers every weather code. */
  lemma AllCodesLabelled(code: WeatherCode)
    ensures code in WeatherLabels
    ensures WeatherLabels[code] != NoWeatherLabel && WeatherLabels[code] != ""
  {
  }

  function Section(asked: bool, line: Line): seq<Line>
  {
    if asked then [line] else []
  }

  function ReasonLineOf(c: DestinationCandidate): Line
    reads c
  {
    ReasonLine(OrElse(c.reason, NoReasonText))
  }

  function WeatherLineOf(c: DestinationCandidate): Line
  {
    WeatherLine(WeatherLabel(c.dailyWeather.weatherCode), c.dailyWeather.tMax, c.dailyWeather.tMin, c.dailyWeather.precipitationSum)
  }

  function AddressLineOf(c: DestinationCandidate): Line
  {
    AddressLine(OrElse(Some(c.placeInfo.roadAddressName), NoAddressText))
  }

  /** Which sections a question asks for. */
  datatype Asked = Asked(reason: bool, time: bool, weather: bool, address: bool, score: bool)
  {
    predicate Nothing()
    {
      !reason && !time && !weather && !address && !score
    }
  }

  /** A section is asked for when one of its keywords occurs in the lower-cased question. */
  function AskedIn(question: string): Asked
  {
    Asked(ContainsAny(question, ReasonKeywords), ContainsAny(question, TimeKeywords),
          ContainsAny(question, WeatherKeywords), ContainsAny(question, AddressKeywords),
          ContainsAny(question, ScoreKeywords))
  }

  /** The asked-for sections, in the fixed order. */
  function Sections(asked: Asked, c: DestinationCandidate): seq<Line>
    reads c
  {
    Section(asked.reason, ReasonLineOf(c))
    + (Section(asked.time, TravelLine(RoundTripText(c.roundTripHours)))
       + (Section(asked.weather, WeatherLineOf(c))
          + (Section(asked.address, AddressLineOf(c))
             + Section(asked.score, ScoreLine(c.outdoorScore)))))
  }

  /** The answer about candidate `c`: its name, the asked-for sections, and the hint when
      nothing was asked for. */
  function Lines(asked: Asked, c: DestinationCandidate): seq<Line>
    reads c
  {
    var sections := Sections(asked, c);
    [Intro(c.placeInfo.placeName)] + (sections + (if sections == [] then [Hint] else []))
  }

  /** handle_follow_up, appending lines and raising the `matched` flag as it goes. */
  method HandleFollowUp(userInput: string, state: ChatSessionState) returns (reply: FollowUp)
    ensures LastPresented(state).None? ==> reply == NoCandidateYet
    ensures LastPresented(state).Some? ==> reply == Reply(Lines(AskedIn(Lower(userInput)), LastPresented(state).value))
  {
    var candidate := LastPresented(state);
    if candidate.None? {
      return NoCandidateYet;
    }
    var c := candidate.value;
    var question := Lower(userInput);
    var lines := [Intro(c.placeInfo.placeName)];
    var matched := false;
    var asked := AskedIn(question);
    ghost var before := lines;
    if asked.reason {
      lines := lines + [ReasonLine(OrElse(c.reason, NoReasonText))];
      matched := true;
    }
    assert lines == before + Section(asked.reason, ReasonLineOf(c));
    before := lines;
    var travel := FormatRoundTripHours(c.roundTripHours);
    if asked.time {
      lines := lines + [TravelLine(travel)];
      matched := true;
    }
    assert lines == before + Section(asked.time, TravelLine(RoundTripText(c.roundTripHours)));
    before := lines;
    if asked.weather {
      var weather := c.dailyWeather;
      lines := lines + [WeatherLine(WeatherLabel(weather.weatherCode), weather.tMax, weather.tMin, weather.precipitationSum)];
      matched := true;
    }
    assert lines == before + Section(asked.weather, WeatherLineOf(c));
    before := lines;
    if asked.address {
      lines := lines + [AddressLine(OrElse(Some(c.placeInfo.roadAddressName), NoAddressText))];
      matched := true;
    }
    assert lines == before + Section(asked.address, AddressLineOf(c));
    before := lines;
    if asked.score {
      lines := lines + [ScoreLine(c.outdoorScore)];
      matched := true;
    }
    assert lines == before + Section(asked.score, ScoreLine(c.outdoorScore));
    assert matched <==> !asked.Nothing();
    SectionsAppended(asked, c);
    ghost var sections := Sections(asked, c);
    assert lines == [Intro(c.placeInfo.placeName)] + sections;
    if !matched {
      lines := lines + [Hint];
    }
    ghost var hint := if sections == [] then [Hint] else [];
    assert lines == [Intro(c.placeInfo.placeName)] + sections + hint;
    Assoc([Intro(c.placeInfo.placeName)], sections, hint);
    reply := Reply(lines);
  }

  /** The sections, appended one after the other to the opening line. */
  lemma SectionsAppended(asked: Asked, c: DestinationCandidate)
    ensures [Intro(c.placeInfo.placeName)] + Sections(asked, c)
            == [Intro(c.placeInfo.placeName)] + Section(asked.reason, ReasonLineOf(c))
               + Section(asked.time, TravelLine(RoundTripText(c.roundTripHours)))
               + Section(asked.weather, WeatherLineOf(c)) + Section(asked.address, AddressLineOf(c))
               + Section(asked.score, ScoreLine(c.outdoorScore))
    ensures Sections(asked, c) == [] <==> asked.Nothing()
  {
    var i := [Intro(c.placeInfo.placeName)];
    var r := Section(asked.reason, ReasonLineOf(c));
    var t := Section(asked.time, TravelLine(RoundTripText(c.roundTripHours)));
    var w := Section(asked.weather, WeatherLineOf(c));
    var a := Section(asked.address, AddressLineOf(c));
    var s := Section(asked.score, ScoreLine(c.outdoorScore));
    Assoc(i + r + t + w, a, s);
    Assoc(i + r + t, w, a + s);
    Assoc(i + r, t, w + (a + s));
    Assoc(i, r, t + (w + (a + s)));
    assert |Sections(asked, c)| == |r| + |t| + |w| + |a| + |s|;
  }

  /** Every line the answer can hold, in the fixed order. */
  function AllLines(c: DestinationCandidate): seq<Line>
    reads c
  {
    [Intro(c.placeInfo.placeName), ReasonLineOf(c), TravelLine(RoundTripText(c.roundTripHours)),
     WeatherLineOf(c), AddressLineOf(c), ScoreLine(c.outdoorScore), Hint]
  }

  lemma SectionThenRest(asked: bool, line: Line, rest: seq<Line>, allRest: seq<Line>)
    requires IsSubsequence(rest, allRest)
    ensures IsSubsequence(Section(asked, line) + rest, [line] + allRest)
  {
    var a := Section(asked, line) + rest;
    var b := [line] + allRest;
    assert b[1..] == allRest;
    if asked {
      assert a[0] == line && a[1..] == rest;
    } else {
      assert a == rest;
    }
  }

  lemma TailInOrder(f3: bool, l3: Line, f4: bool, l4: Line, f5: bool, l5: Line, h: seq<Line>)
    requires IsSubsequence(h, [Hint])
    ensures IsSubsequence(Section(f3, l3) + (Section(f4, l4) + Section(f5, l5)) + h, [l3, l4, l5, Hint])
  {
    var rs := Section(f5, l5);
    var ra := Section(f4, l4) + rs;
    SectionThenRest(f5, l5, h, [Hint]);
    SectionThenRest(f4, l4, rs + h, [l5, Hint]);
    Assoc(Section(f4, l4), rs, h);
    SectionThenRest(f3, l3, ra + h, [l4, l5, Hint]);
    Assoc(Section(f3, l3), ra, h);
  }

  lemma ChainInOrder(f1: bool, l1: Line, f2: bool, l2: Line, f3: bool, l3: Line, f4: bool, l4: Line,
                     f5: bool, l5: Line, h: seq<Line>)
    requires IsSubsequence(h, [Hint])
    ensures IsSubsequence(Section(f1, l1) + (Section(f2, l2) + (Section(f3, l3) + (Section(f4, l4) + Section(f5, l5)))) + h,
                          [l1, l2, l3, l4, l5, Hint])
  {
    var rw := Section(f3, l3) + (Section(f4, l4) + Section(f5, l5));
    var rt := Section(f2, l2) + rw;
    TailInOrder(f3, l3, f4, l4, f5, l5, h);
    SectionThenRest(f2, l2, rw + h, [l3, l4, l5, Hint]);
    Assoc(Section(f2, l2), rw, h);
    SectionThenRest(f1, l1, rt + h, [l2, l3, l4, l5, Hint]);
    Assoc(Section(f1, l1), rt, h);
  }

  /** The answer opens with the candidate's name and follows the fixed order name,
      reason, time, weather, address, score, hint. */
  lemma LinesOrder(asked: Asked, c: DestinationCandidate)
    ensures |Lines(asked, c)| >= 2
    ensures Lines(asked, c)[0] == Intro(c.placeInfo.placeName)
    ensures IsSubsequence(Lines(asked, c), AllLines(c))
  {
    var sections := Sections(asked, c);
    var h := if sections == [] then [Hint] else [];
    assert IsSubsequence(h, [Hint]) by {
      if h != [] {
        assert h[1..] == [] && [Hint][1..] == [];
      }
    }
    ChainInOrder(asked.reason, ReasonLineOf(c), asked.time, TravelLine(RoundTripText(c.roundTripHours)),
                 asked.weather, WeatherLineOf(c), asked.address, AddressLineOf(c), asked.score, ScoreLine(c.outdoorScore), h);
    var lines := Lines(asked, c);
    assert lines[1..] == sections + h;
    assert AllLines(c)[1..] == [ReasonLineOf(c), TravelLine(RoundTripText(c.roundTripHours)), WeatherLineOf(c),
                                AddressLineOf(c), ScoreLine(c.outdoorScore), Hint];
  }

  /** The lines of the answer are exactly: the name, each asked-for section holding the
      candidate's own data, and the hint when nothing was asked for. */
  lemma LinesMembers(asked: Asked, c: DestinationCandidate, x: Line)
    ensures x in Lines(asked, c) <==>
              || x == Intro(c.placeInfo.placeName)
              || (asked.reason && x == ReasonLineOf(c))
              || (asked.time && x == TravelLine(RoundTripText(c.roundTripHours)))
              || (asked.weather && x == WeatherLineOf(c))
              || (asked.address && x == AddressLineOf(c))
              || (asked.score && x == ScoreLine(c.outdoorScore))
              || (asked.Nothing() && x == Hint)
  {
    SectionsAppended(asked, c);
    SectionsMembers(asked, c, x);
    var sections := Sections(asked, c);
    var h := if sections == [] then [Hint] else [];
    assert x in Lines(asked, c) <==> x == Intro(c.placeInfo.placeName) || x in sections || x in h;
  }

  lemma SectionsMembers(asked: Asked, c: DestinationCandidate, x: Line)
    ensures x in Sections(asked, c) <==>
              || (asked.reason && x == ReasonLineOf(c))
              || (asked.time && x == TravelLine(RoundTripText(c.roundTripHours)))
              || (asked.weather && x == WeatherLineOf(c))
              || (asked.address && x == AddressLineOf(c))
              || (asked.score && x == ScoreLine(c.outdoorScore))
  {
    InFiveSections(asked.reason, asked.time, asked.weather, asked.address, asked.score,
                   ReasonLineOf(c), TravelLine(RoundTripText(c.roundTripHours)), WeatherLineOf(c),
                   AddressLineOf(c), ScoreLine(c.outdoorScore), x);
  }

  lemma InFiveSections(b1: bool, b2: bool, b3: bool, b4: bool, b5: bool,
                       l1: Line, l2: Line, l3: Line, l4: Line, l5: Line, x: Line)
    ensures x in Section(b1, l1) + (Section(b2, l2) + (Section(b3, l3) + (Section(b4, l4) + Section(b5, l5))))
            <==> (b1 && x == l1) || (b2 && x == l2) || (b3 && x == l3) || (b4 && x == l4) || (b5 && x == l5)
  {
    var s45 := Section(b4, l4) + Section(b5, l5);
    assert x in s45 <==> (b4 && x == l4) || (b5 && x == l5);
    var s35 := Section(b3, l3) + s45;
    assert x in s35 <==> (b3 && x == l3) || x in s45;
    var s25 := Section(b2, l2) + s35;
    assert x in s25 <==> (b2 && x == l2) || x in s35;
    assert x in Section(b1, l1) + s25 <==> (b1 && x == l1) || x in s25;
  }
}
