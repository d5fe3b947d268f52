/** The feasibility filter and enrichment loop of generate_travel_candidates
    (services/travel_input_service.py) and the session update that ends it. The routing,
    weather and language-model services are parameters: `Providers` answers the routing and
    forecast requests for a place, and the two model answers are given as values. */
module TravelInputService {
  import opened Domain
  import opened Seqs
  import Route
  import WeatherHelper
  import OpenAiFilter
  import OpenAiRecommender

  /** What the routing and forecast services answer for one destination. */
  datatype Providers = Providers(car: PlaceInfo -> Option<Route.CarBody>,
                                 pub: PlaceInfo -> Option<Route.PublicBody>,
                                 weather: PlaceInfo -> Option<DailyWeather>)

  /** The ways the loop can stop with an exception: a routing response that could not be
      read, or a forecast that did not cover the departure date. */
  datatype PipelineError = RouteFailed(place: PlaceInfo, error: Route.RouteError) | WeatherUnavailable(place: PlaceInfo)

  /** The value carried by one enriched candidate. */
  datatype Enriched = Enriched(place: PlaceInfo, roundTripHours: RoundTripHours, weather: DailyWeather, outdoorScore: int)

  /** The outcome of the loop body for one place. */
  datatype Step = Fail(error: PipelineError) | Skip | Keep(item: Enriched)

  /** The shortest of the round-trip times that are present. */
  function ShortestTime(car: Option<real>, pub: Option<real>): (t: real)
    requires car.Some? || pub.Some?
    ensures car.Some? ==> t <= car.value
    ensures pub.Some? ==> t <= pub.value
    ensures (car.Some? && t == car.value) || (pub.Some? && t == pub.value)
  {
    if car.None? then pub.value
    else if pub.None? then car.value
    else if car.value <= pub.value then car.value else pub.value
  }

  /** A round trip fits when its shortest time is not over half the budget. */
  predicate WithinBudget(times: RoundTripHours, maxTravelHours: real)
    requires Car in times && Public in times && (times[Car].Some? || times[Public].Some?)
  {
    !(ShortestTime(times[Car], times[Public]) > maxTravelHours * 0.5)
  }

  /** A destination fits exactly when one of the present modes takes at most half the
      budget; a time equal to half the budget fits. */
  lemma WithinBudgetIffSomeModeFits(times: RoundTripHours, maxTravelHours: real)
    requires Car in times && Public in times && (times[Car].Some? || times[Public].Some?)
    ensures WithinBudget(times, maxTravelHours) <==>
              (times[Car].Some? && times[Car].value <= maxTravelHours * 0.5)
              || (times[Public].Some? && times[Public].value <= maxTravelHours * 0.5)
  {
  }

  /** One pass of the loop body: route, keep or skip, forecast, score. */
  function EnrichOne(place: PlaceInfo, info: ParsedUserInfo, env: Providers): Step
  {
    match Route.RoundTrip(info.transportation, env.car(place), env.pub(place))
    case Failure(e) => Fail(RouteFailed(place, e))
    case Success(times) =>
      if !WithinBudget(times, info.maxTravelHours) then Skip
      else match env.weather(place)
        case None => Fail(WeatherUnavailable(place))
        case Some(w) => Keep(Enriched(place, times, w, WeatherHelper.OutdoorScore(w)))
  }

  /** The whole loop: the first failing place stops it, skipped places are dropped. */
  function Enrich(places: seq<PlaceInfo>, info: ParsedUserInfo, env: Providers): Result<seq<Enriched>, PipelineError>
    decreases |places|
  {
    if places == [] then Success([])
    else match EnrichOne(places[0], info, env)
      case Fail(e) => Failure(e)
      case Skip => Enrich(places[1..], info, env)
      case Keep(x) => Prepend([x], Enrich(places[1..], info, env))
  }

  function Prepend(xs: seq<Enriched>, r: Result<seq<Enriched>, PipelineError>): Result<seq<Enriched>, PipelineError>
  {
    match r
    case Failure(e) => Failure(e)
    case Success(ys) => Success(xs + ys)
  }

  lemma PrependNil(r: Result<seq<Enriched>, PipelineError>)
    ensures Prepend([], r) == r
  {
    if r.Success? {
      assert [] + r.value == r.value;
    }
  }

  lemma PrependAssoc(a: seq<Enriched>, b: seq<Enriched>, r: Result<seq<Enriched>, PipelineError>)
    ensures Prepend(a, Prepend(b, r)) == Prepend(a + b, r)
  {
    if r.Success? {
      assert a + (b + r.value) == (a + b) + r.value;
    }
  }

  /** Whether the loop keeps a place whose routing lookup succeeds. */
  predicate Feasible(place: PlaceInfo, info: ParsedUserInfo, env: Providers)
  {
    var r := Route.RoundTrip(info.transportation, env.car(place), env.pub(place));
    r.Success? && WithinBudget(r.value, info.maxTravelHours)
  }

  /** The places that fit the budget, in input order. */
  function FeasiblePlaces(places: seq<PlaceInfo>, info: ParsedUserInfo, env: Providers): seq<PlaceInfo>
    decreases |places|
  {
    if places == [] then []
    else (if Feasible(places[0], info, env) then [places[0]] else []) + FeasiblePlaces(places[1..], info, env)
  }

  function Places(es: seq<Enriched>): seq<PlaceInfo>
  {
    seq(|es|, i requires 0 <= i < |es| => es[i].place)
  }

  function Snapshot(c: DestinationCandidate): Enriched
  {
    Enriched(c.placeInfo, c.roundTripHours, c.dailyWeather, c.outdoorScore)
  }

  function Snapshots(cs: seq<DestinationCandidate>): seq<Enriched>
  {
    seq(|cs|, i requires 0 <= i < |cs| => Snapshot(cs[i]))
  }

  lemma SnapshotsMembers(cs: seq<DestinationCandidate>)
    ensures forall c :: c in cs ==> Snapshot(c) in Snapshots(cs)
  {
    forall c | c in cs
      ensures Snapshot(c) in Snapshots(cs)
    {
      var i :| 0 <= i < |cs| && cs[i] == c;
      assert Snapshots(cs)[i] == Snapshot(c);
    }
  }

  /** The loop fails exactly when some place's routing fails, or some place that fits the
      budget has no forecast. */
  lemma {:induction false} EnrichFailsIff(places: seq<PlaceInfo>, info: ParsedUserInfo, env: Providers)
    ensures Enrich(places, info, env).Failure? <==> exists p :: p in places && EnrichOne(p, info, env).Fail?
    ensures Enrich(places, info, env).Failure? <==>
              exists p :: p in places &&
                (Route.RoundTrip(info.transportation, env.car(p), env.pub(p)).Failure?
                 || (Feasible(p, info, env) && env.weather(p).None?))
    decreases |places|
  {
    if places != [] {
      EnrichFailsIff(places[1..], info, env);
      assert forall p :: p in places <==> p == places[0] || p in places[1..];
    }
  }

  /** A successful run keeps exactly the feasible places, in input order. */
  lemma {:induction false} EnrichKeepsFeasible(places: seq<PlaceInfo>, info: ParsedUserInfo, env: Providers)
    requires Enrich(places, info, env).Success?
    ensures Places(Enrich(places, info, env).value) == FeasiblePlaces(places, info, env)
    decreases |places|
  {
    if places != [] {
      EnrichKeepsFeasible(places[1..], info, env);
      var rest := Enrich(places[1..], info, env).value;
      match EnrichOne(places[0], info, env)
      case Skip =>
      case Keep(x) =>
        assert Enrich(places, info, env).value == [x] + rest;
        assert Places([x] + rest) == [x.place] + Places(rest);
    }
  }

  /** What one kept candidate carries: its routing result unchanged, its forecast, and
      the outdoor score of that forecast. */
  predicate Sound(e: Enriched, info: ParsedUserInfo, env: Providers)
  {
    && Route.RoundTrip(info.transportation, env.car(e.place), env.pub(e.place)) == Success(e.roundTripHours)
    && Feasible(e.place, info, env)
    && env.weather(e.place) == Some(e.weather)
    && e.outdoorScore == WeatherHelper.OutdoorScore(e.weather)
    && 0 <= e.outdoorScore <= 100
  }

  /** Every candidate of a successful run comes from the input and carries its routing
      result unchanged, its forecast and the outdoor score of that forecast. */
  lemma {:induction false} EnrichedAreSound(places: seq<PlaceInfo>, info: ParsedUserInfo, env: Providers)
    requires Enrich(places, info, env).Success?
    ensures forall e :: e in Enrich(places, info, env).value ==> e.place in places && Sound(e, info, env)
    decreases |places|
  {
    if places != [] {
      EnrichedAreSound(places[1..], info, env);
      var rest := Enrich(places[1..], info, env).value;
      assert forall p :: p in places[1..] ==> p in places;
      match EnrichOne(places[0], info, env)
      case Skip =>
      case Keep(x) =>
        assert Enrich(places, info, env).value == [x] + rest;
        assert Sound(x, info, env);
    }
  }

  /** The feasible places are exactly the input places that fit, in input order. */
  lemma {:induction false} FeasiblePlacesMembers(places: seq<PlaceInfo>, info: ParsedUserInfo, env: Providers)
    ensures IsSubsequence(FeasiblePlaces(places, info, env), places)
    ensures forall p :: p in FeasiblePlaces(places, info, env) <==> p in places && Feasible(p, info, env)
    decreases |places|
  {
    if places != [] {
      FeasiblePlacesMembers(places[1..], info, env);
      var rest := FeasiblePlaces(places[1..], info, env);
      assert forall p :: p in places <==> p == places[0] || p in places[1..];
      if Feasible(places[0], info, env) {
        assert ([places[0]] + rest)[1..] == rest;
      } else {
        assert FeasiblePlaces(places, info, env) == rest;
      }
    }
  }

  lemma EnrichStep(places: seq<PlaceInfo>, i: nat, info: ParsedUserInfo, env: Providers)
    requires i < |places|
    ensures Enrich(places[i..], info, env) ==
              match EnrichOne(places[i], info, env)
              case Fail(e) => Failure(e)
              case Skip => Enrich(places[i + 1..], info, env)
              case Keep(x) => Prepend([x], Enrich(places[i + 1..], info, env))
  {
    assert places[i..][0] == places[i];
    assert places[i..][1..] == places[i + 1..];
  }

  /** The loop of lines 56-98, building fresh candidate objects with no reason yet. */
  method EnrichCandidates(places: seq<PlaceInfo>, info: ParsedUserInfo, env: Providers)
    returns (r: Result<seq<DestinationCandidate>, PipelineError>)
    ensures r.Success? <==> Enrich(places, info, env).Success?
    ensures r.Failure? ==> r.error == Enrich(places, info, env).error
    ensures r.Success? ==> Snapshots(r.value) == Enrich(places, info, env).value
    ensures r.Success? ==> forall c :: c in r.value ==> fresh(c) && c.reason == None
  {
    var enriched: seq<DestinationCandidate> := [];
    assert places[0..] == places;
    PrependNil(Enrich(places, info, env));
    assert Snapshots(enriched) == [];
    for i := 0 to |places|
      invariant Enrich(places, info, env) == Prepend(Snapshots(enriched), Enrich(places[i..], info, env))
      invariant forall c :: c in enriched ==> fresh(c) && c.reason == None
    {
      var place := places[i];
      EnrichStep(places, i, info, env);
      var routed := Route.GetRoundTripHours(info.transportation, env.car(place), env.pub(place));
      if routed.Failure? {
        return Failure(RouteFailed(place, routed.error));
      }
      var roundTripHours := routed.value;
      var shortestTime := ShortestTime(roundTripHours[Car], roundTripHours[Public]);
      if shortestTime > info.maxTravelHours * 0.5 {
        continue;
      }
      var dailyWeather := env.weather(place);
      if dailyWeather.None? {
        return Failure(WeatherUnavailable(place));
      }
      var outdoorScore := WeatherHelper.CalculateOutdoorScore(dailyWeather.value);
      var candidate := new DestinationCandidate(place, roundTripHours, dailyWeather.value, outdoorScore);
      assert EnrichOne(place, info, env) == Keep(Snapshot(candidate));
      PrependAssoc(Snapshots(enriched), [Snapshot(candidate)], Enrich(places[i + 1..], info, env));
      assert Snapshots(enriched + [candidate]) == Snapshots(enriched) + [Snapshot(candidate)];
      enriched := enriched + [candidate];
    }
    assert places[|places|..] == [];
    assert Snapshots(enriched) + [] == Snapshots(enriched);
    r := Success(enriched);
  }

  /** What recommend_top_k_candidates returns for the enriched candidates `cs`: nothing for
      no candidates or k <= 0, otherwise the first k candidates named by the answer, in the
      answer's order. */
  function Recommended(cs: seq<DestinationCandidate>, recommendation: seq<OpenAiRecommender.LlmRecommendation>, k: int)
    : (top: seq<DestinationCandidate>)
    ensures k > 0 ==> |top| <= k
    ensures forall c :: c in top ==> c in cs
  {
    if cs == [] || k <= 0 then []
    else
      OpenAiRecommender.NameIndexEntries(cs);
      OpenAiRecommender.OrderedMembers(OpenAiRecommender.NameIndex(cs), recommendation);
      OpenAiRecommender.TakeMembers(OpenAiRecommender.Ordered(OpenAiRecommender.NameIndex(cs), recommendation), k);
      Take(OpenAiRecommender.Ordered(OpenAiRecommender.NameIndex(cs), recommendation), k)
  }

  /** generate_travel_candidates from the searched places on: the preference filter with
      candidate size k, the enrichment loop, the recommender, then the session update.
      As written the parsed request is stored under a misspelt attribute, so the session's
      own parsed-request field is left as it was. */
  method GenerateTravelCandidates(state: ChatSessionState, info: ParsedUserInfo, k: int,
                                  searched: seq<PlaceInfo>, filterAnswer: seq<string>, env: Providers,
                                  recommendation: seq<OpenAiRecommender.LlmRecommendation>)
    returns (r: Result<seq<DestinationCandidate>, PipelineError>)
    modifies state
    ensures var enriched := Enrich(OpenAiFilter.FilterCandidatesByUserPreferences(searched, filterAnswer, k), info, env);
            && (r.Failure? <==> enriched.Failure?)
            && (r.Failure? ==> r.error == enriched.error && unchanged(state))
            && (r.Success? ==> forall c :: c in r.value ==> fresh(c) && Snapshot(c) in enriched.value)
    ensures r.Success? ==> state.candidates == r.value && state.currentIndex == 0
    ensures r.Success? ==> state.parsedUserInfo == old(state.parsedUserInfo)
    ensures r.Success? ==> (k > 0 ==> |r.value| <= k) && (k <= 0 ==> r.value == [])
    ensures r.Success? ==> forall c :: c in r.value ==>
              exists rec :: rec in recommendation && rec.placeName == c.placeInfo.placeName && c.reason == Some(rec.reason)
    ensures var enriched := Enrich(OpenAiFilter.FilterCandidatesByUserPreferences(searched, filterAnswer, k), info, env);
            r.Success? ==> exists cs: seq<DestinationCandidate> ::
              && Snapshots(cs) == enriched.value
              && (forall c :: c in cs ==> fresh(c))
              && r.value == Recommended(cs, recommendation, k)
              && (forall c :: c in cs ==>
                    c.reason == if k > 0 then OpenAiRecommender.ReasonAfter(OpenAiRecommender.NameIndex(cs), recommendation, c, None)
                                else None)
  {
    var filtered := OpenAiFilter.FilterCandidatesByUserPreferences(searched, filterAnswer, k);
    var enriched := EnrichCandidates(filtered, info, env);
    if enriched.Failure? {
      return Failure(enriched.error);
    }
    var candidates := enriched.value;
    SnapshotsMembers(candidates);
    var top := RecommendNew(candidates, recommendation, k);
    state.candidates := top;
    state.currentIndex := 0;
    r := Success(top);
  }

  /** The recommender applied to candidates that hold no reason yet. */
  method RecommendNew(candidates: seq<DestinationCandidate>, recommendation: seq<OpenAiRecommender.LlmRecommendation>, k: int)
    returns (top: seq<DestinationCandidate>)
    requires forall c :: c in candidates ==> c.reason == None
    modifies set c | c in candidates
    ensures top == Recommended(candidates, recommendation, k)
    ensures forall c :: c in candidates ==>
              c.reason == if k > 0 then OpenAiRecommender.ReasonAfter(OpenAiRecommender.NameIndex(candidates), recommendation, c, None)
                          else None
    ensures forall c :: c in top ==>
              exists rec :: rec in recommendation && rec.placeName == c.placeInfo.placeName && c.reason == Some(rec.reason)
  {
    top := OpenAiRecommender.RecommendTopKCandidates(candidates, recommendation, k);
    if candidates != [] && k > 0 {
      forall c | c in top
        ensures exists rec :: rec in recommendation && rec.placeName == c.placeInfo.placeName && c.reason == Some(rec.reason)
      {
        var index := OpenAiRecommender.NameIndex(candidates);
        OpenAiRecommender.TakeMembers(OpenAiRecommender.Ordered(index, recommendation), k);
        OpenAiRecommender.NameIndexEntries(candidates);
        OpenAiRecommender.OrderedMembers(index, recommendation);
        assert c in candidates && old(c.reason) == None;
        OpenAiRecommender.OrderedHasReason(candidates, recommendation, c, None);
      }
    }
  }
}
