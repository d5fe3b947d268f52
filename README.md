# Day-trip recommender core, modelled in Dafny

This project models the deterministic core of a day-trip recommender written in Python.
The recommender turns a request into a short list of destinations. It searches places
around the origin. It keeps those reachable within half the time budget. It scores each
day's forecast for outdoor suitability. It lets a language model rank the survivors. Then
it presents them one at a time and answers follow-up questions about the one last shown.

Every HTTP service and every language-model call becomes a parameter of the model:

- the place-search pages are a `Fetch` function from request to optional page;
- the routing and forecast answers per destination are a `Providers` record;
- the Google place lookup is a `PlaceLookup` record;
- each language-model answer (the filter's names, the recommender's entries, the scorer's
  list) is a plain value.

Each source module is one Dafny module in one file:

| file | module | models |
|---|---|---|
| domain.dfy | Domain | Option/Result, the WMO weather codes, daily weather, transport modes, places, the candidate and session classes |
| text.dfy | Text | `strip`, `lower`, substring tests, truthiness of optional text |
| seqs.dfy | Seqs | `s[:n]` and the subsequence relation |
| weather_helper.dfy | WeatherHelper | `calculate_outdoor_score`, `get_daily_index` |
| distance_helper.dfy | DistanceHelper | `time_to_radius` |
| metrics.dfy | Metrics | `mrr_score`, `hit_at_k` |
| route.dfy | Route | the per-mode round-trip lookups and `get_round_trip_hours` |
| kakao_local_candidates.dfy | KakaoLocalCandidates | the paginated keyword and category searches, short/long dispatch, merge and de-duplication |
| openai_filter.dfy | OpenAiFilter | matching and capping after the preference filter answers |
| openai_recommender.dfy | OpenAiRecommender | name mapping, reason assignment and the top-k cut |
| openai_scorer.dfy | OpenAiScorer | the guard and `[:k]` cut |
| travel_input_service.dfy | TravelInputService | the feasibility and enrichment loop and the session update |
| openai_followup_handler.dfy | OpenAiFollowupHandler | the last-shown candidate, travel-time text, weather labels, section dispatch |
| travel_output_service.dfy | TravelOutputService | the card of the candidate under the cursor and the cursor advance |

The source's form is kept:

- Loops that append or update become methods with loops. Each such method is proved equal
  to a specification function, and the properties are lemmas about that function.
- The candidate, whose `reason` the recommender overwrites on shared objects, is a class.
- The chat session, whose candidate list and cursor are updated, is also a class.
- Python floats are `real`. Only comparisons and scaling occur.

Where the code and its documented intent disagree, the model follows the code:

- With no travel time at all, the code's comparison at services/travel_input_service.py:79
  would raise rather than reject the place. Here that case is proved impossible:
  `Route.RoundTripHasATime` shows a successful lookup always fills a requested mode.
- The code caps the category search at one page (`MAX_PAGES = 1`). Only the keyword search
  pages up to five times, through a local constant that shadows the module's.
- A routing response that failed is not a soft failure in the code. The car lookup
  subscripts it, and the transit lookup calls `.get` on it outside its `try`. Both are
  error outcomes (`Route.RouteError`).
- The session update writes the parsed request to a misspelt attribute
  (services/travel_input_service.py:115). The session class is not part of this model
  (domain/models.py does not define it). The model assumes it is a plain class that accepts
  a new attribute, so its parsed-request field stays as it was, and
  `GenerateTravelCandidates` says so.

## Model

| member | source | states |
|---|---|---|
| Domain.WeatherCodeOf | utils/weather_helper.py:78 | decoding a WMO number gives, when it succeeds, the code carrying exactly that number |
| Domain.WeatherCodeRoundTrip | utils/weather_helper.py:78 | every weather code decodes back from its own WMO number |
| Domain.DestinationCandidate.constructor | services/travel_input_service.py:92-97 | a new candidate holds the given place, routing map, forecast and score, with no reason yet |
| Text.Strip | services/travel_output_service.py:47 | the result is a slice of the input with no whitespace at either end, and everything before and after that slice is whitespace |
| Text.Lower | apis/openai_followup_handler.py:89 | same length; each ASCII capital becomes its lower-case letter, every other character is kept |
| WeatherHelper.Clamp | utils/weather_helper.py:131 | the result lies in [0, 100]; it is the input inside that range, 0 below it and 100 above it |
| WeatherHelper.OutdoorScore | utils/weather_helper.py:76-132 | the score of any forecast lies in [0, 100] |
| WeatherHelper.CalculateOutdoorScore | utils/weather_helper.py:33-132 | subtracting the code, precipitation and temperature penalties from 100 step by step and clamping gives OutdoorScore, within [0, 100] |
| WeatherHelper.CodePenaltyBrackets | utils/weather_helper.py:81-105 | the code penalty is 80 exactly for the heavy/storm set, 40 exactly for the light rain, drizzle and shower set, 20 exactly for the fog set, 0 otherwise; the three sets are disjoint |
| WeatherHelper.UnlistedCodesCostNothing | utils/weather_helper.py:81-105 | dense drizzle, moderate snow and overcast carry no code penalty |
| WeatherHelper.PrecipitationTiers | utils/weather_helper.py:108-113 | exactly one precipitation tier applies: over 10 mm 50, over 5 mm 30, over 1 mm 15, else 0; exactly 10 mm costs 30 |
| WeatherHelper.MaxTemperatureTiers | utils/weather_helper.py:116-123 | the maximum-temperature penalty is 30 at or above 32 or at or below 0, 20 in [28, 32) or (0, 5], and 0 strictly between 5 and 28 |
| WeatherHelper.MinTemperatureTiers | utils/weather_helper.py:125-128 | the minimum-temperature penalty is 20 at or below -5, 10 in (-5, 0], else 0 |
| WeatherHelper.SevereWeatherCapsScore | utils/weather_helper.py:76-131 | a heavy/storm code scores at most 20 whatever the other readings |
| WeatherHelper.ScoreNonIncreasingInPrecipitation | utils/weather_helper.py:108-113 | more precipitation, all else equal, never raises the score |
| WeatherHelper.HeavyRainDayScoresZero | utils/weather_helper.py:76-132 | heavy rain with 15 mm at 10/2 degrees scores 0 |
| WeatherHelper.DailyIndex | utils/weather_helper.py:7-30 | on success the first position holding the target date; failure with the target date exactly when the date is not in the list |
| WeatherHelper.GetDailyIndex | utils/weather_helper.py:25-30 | the scanning loop returns DailyIndex |
| DistanceHelper.Speed | utils/distance_helper.py:9-18 | every looked-up speed is positive |
| DistanceHelper.TimeToRadius | utils/distance_helper.py:4-23 | the radius is never under 3000 metres |
| DistanceHelper.TimeToRadiusClosedForm | utils/distance_helper.py:19-22 | radius = 1000 * max(3, speed * max(0, hours) * 0.45 / 2 * 0.8) |
| DistanceHelper.NoTimeGivesFloor | utils/distance_helper.py:19-22 | a budget of zero hours or less gives exactly 3000 metres |
| DistanceHelper.SpeedLookup | utils/distance_helper.py:17-18 | keys are lower-cased, so "CAR" and "car" travel at 60 km/h; no mode means public transport at 22 km/h |
| DistanceHelper.UnknownKeyUsesDefault | utils/distance_helper.py:18 | a mode missing from the table travels at 22 km/h |
| DistanceHelper.TimeToRadiusMonotone | utils/distance_helper.py:19-21 | more hours never give a smaller radius |
| DistanceHelper.FourHoursByCar | utils/distance_helper.py:9-22 | four hours by car give 43200 metres |
| Metrics.MrrScore | utils/metrics.py:2-10 | the score lies in [0, 1], and for a present prediction it times the 1-based rank of its first occurrence is 1 |
| Metrics.HitAtK | utils/metrics.py:13-18 | the result is 0 or 1; a hit means the prediction is in the gold list; for k at least the list's length a hit is plain membership |
| Metrics.IndexOf | utils/metrics.py:9 | `index` returns a position holding the item with no earlier one |
| Metrics.SlicePrefix | utils/metrics.py:18 | `s[:k]` is a prefix of s of length min(k, len) for k >= 0, and drops the last -k items for k < 0 |
| Metrics.MrrScoreRange | utils/metrics.py:7-10 | the reciprocal rank is 0 exactly when the prediction is absent, and otherwise lies in (0, 1] |
| Metrics.MrrScoreOneIffFirst | utils/metrics.py:9-10 | the reciprocal rank is 1 exactly when the prediction heads the gold list |
| Metrics.HitAtKBasics | utils/metrics.py:18 | Hit@k is 0 or 1; k = 0 never hits; k at least the length is plain membership |
| Metrics.HitAtKMonotone | utils/metrics.py:18 | for 0 <= k1 <= k2, Hit@k1 <= Hit@k2 |
| Metrics.HitAtKNegative | utils/metrics.py:18 | a negative k hits exactly when the prediction is among all but the last -k gold items |
| Metrics.HitAtKIffMrrAtLeast | utils/metrics.py:9-18 | for k >= 1 and a present prediction, Hit@k is 1 exactly when the reciprocal rank is at least 1/k |
| Route.CarRoundTripUnits | apis/route.py:33-37 | with result code 0 the round trip is the first route's seconds times 2 / 3600; with any other code exactly one hour; a missing summary is an error |
| Route.PublicRoundTripUnits | apis/route.py:64-96 | only a failed call is an error; a missing result, path, info or totalTime gives one hour; otherwise the first path's minutes times 2 / 60 |
| Route.RoundTrip | apis/route.py:99-138 | both modes are keys; a mode has a time exactly when it is requested, and that time is its lookup's; failure exactly when a requested lookup fails, the car's error first |
| Route.GetRoundTripHours | apis/route.py:121-138 | filling the map mode by mode returns RoundTrip |
| Route.RoundTripHasATime | apis/route.py:121-136 | a successful lookup has a time for at least one mode |
| KakaoLocalCandidates.ClampRadius | apis/kakao_local_candidates.py:33 | the clamped radius is at most 20000 m, and is the given radius whenever that is within the limit |
| KakaoLocalCandidates.IsEnd | apis/kakao_local_candidates.py:67 | paging ends exactly when `is_end` is missing or true; a null `is_end` does not end it |
| KakaoLocalCandidates.ToPlaces | apis/kakao_local_candidates.py:57-64 | each document becomes one place, in order |
| KakaoLocalCandidates.SearchPages | apis/kakao_local_candidates.py:39-68 | the page loop with its three breaks returns the paginated search |
| KakaoLocalCandidates.AppendPlaces | apis/kakao_local_candidates.py:57-65 | appending a page's documents one by one appends their places |
| KakaoLocalCandidates.PaginateShape | apis/kakao_local_candidates.py:39-68 | pages are requested in order from the first, at most up to the cap; paging goes past a page only if it arrived, was non-empty and was not the last; short of the cap it stops at the first page that ends it |
| KakaoLocalCandidates.PaginatePlaces | apis/kakao_local_candidates.py:49-68 | the places are the documents of every page requested, concatenated in page order |
| KakaoLocalCandidates.GetTravelCandidatesByKeywordInRadius | apis/kakao_local_candidates.py:21-70 | the keyword search with the clamped radius and a five-page cap |
| KakaoLocalCandidates.GetTravelCandidatesByCategoryInRadius | apis/kakao_local_candidates.py:73-124 | the categories in order, each paged up to the one-page cap, results concatenated |
| KakaoLocalCandidates.KeywordSearchRequests | apis/kakao_local_candidates.py:33-47 | one to five keyword requests for pages 1, 2, ... at the clamped radius and page size 15 |
| KakaoLocalCandidates.CategorySearchRequests | apis/kakao_local_candidates.py:85-101 | exactly one request per category, for page 1, in category order, at the clamped radius |
| KakaoLocalCandidates.CategorySearchPlaces | apis/kakao_local_candidates.py:90-122 | the category search's places are the documents of its requests in order |
| KakaoLocalCandidates.GetTravelCandidatesForShortTravel | apis/kakao_local_candidates.py:127-153 | the dispatch returns the short-travel search |
| KakaoLocalCandidates.ShortTravelDispatch | apis/kakao_local_candidates.py:138-153 | a keyword non-empty after stripping makes every request a query for the stripped keyword, otherwise every request is a category request; no request exceeds 20000 m |
| KakaoLocalCandidates.GetTravelCandidatesForLongTravel | apis/kakao_local_candidates.py:156-208 | the result is the de-duplicated merge of the workers' places in completion order |
| KakaoLocalCandidates.MergeWorkerPlaces | apis/kakao_local_candidates.py:173-196 | extending the list with each finished worker's places, nothing for one that raised, gives Merged |
| KakaoLocalCandidates.DedupPlaces | apis/kakao_local_candidates.py:198-208 | the seen-id loop returns Dedup |
| KakaoLocalCandidates.GetTravelCandidates | apis/kakao_local_candidates.py:211-236 | the multi-center path exactly when the radius exceeds 20000 m, the short-travel search otherwise |
| KakaoLocalCandidates.DedupIds | apis/kakao_local_candidates.py:199-208 | every input id survives de-duplication and no other id appears |
| KakaoLocalCandidates.DedupDistinct | apis/kakao_local_candidates.py:199-208 | the output ids are pairwise distinct |
| KakaoLocalCandidates.DedupOfDistinct | apis/kakao_local_candidates.py:199-208 | a list with distinct ids is returned unchanged |
| KakaoLocalCandidates.DedupIdempotent | apis/kakao_local_candidates.py:199-208 | de-duplicating twice equals de-duplicating once |
| KakaoLocalCandidates.DedupKeepsFirstOccurrences | apis/kakao_local_candidates.py:202-206 | the output lists the input at the first-occurrence positions of each id, in ascending order, and at no other position |
| KakaoLocalCandidates.MergedIdsFound | apis/kakao_local_candidates.py:189-196 | an id is in the merge exactly when one of the workers in the completion order found it |
| KakaoLocalCandidates.FoundByWitness | apis/kakao_local_candidates.py:189-196 | a worker in the completion order found the id exactly when some member of that order has it among its places |
| KakaoLocalCandidates.MergedIds | apis/kakao_local_candidates.py:189-196 | an id is in the merge exactly when some finished worker found it |
| KakaoLocalCandidates.MergeOrderIndependent | apis/kakao_local_candidates.py:189-208 | any two completion orders give the same set of ids after de-duplication |
| KakaoLocalCandidates.AllWorkersRaised | apis/kakao_local_candidates.py:189-196 | when every worker raised, the merge is empty and nothing fails |
| KakaoLocalCandidates.WorkerRadius | apis/kakao_local_candidates.py:178-186 | every request a worker issues uses the 20000 m radius |
| TravelInputService.ShortestTime | services/travel_input_service.py:68-76 | the shortest time is at most each present time and is one of them |
| TravelInputService.WithinBudgetIffSomeModeFits | services/travel_input_service.py:79-80 | a place is kept exactly when some present mode takes at most half the budget; equality is kept |
| TravelInputService.EnrichFailsIff | services/travel_input_service.py:56-98 | the loop fails exactly when some place's routing fails, or some place within budget has no forecast |
| TravelInputService.EnrichKeepsFeasible | services/travel_input_service.py:56-98 | a successful loop keeps exactly the places within budget, in input order |
| TravelInputService.FeasiblePlacesMembers | services/travel_input_service.py:67-80 | the places within budget form a subsequence of the input and are exactly the input places that fit |
| TravelInputService.EnrichedAreSound | services/travel_input_service.py:58-97 | every kept candidate comes from the input and carries its routing map unchanged, its forecast, and that forecast's outdoor score in [0, 100] |
| TravelInputService.EnrichCandidates | services/travel_input_service.py:54-98 | the loop fails as Enrich does, or returns fresh candidates without a reason whose contents are Enrich's |
| TravelInputService.Recommended | apis/openai_recommender.py:83-140 | at most k candidates for k > 0, all drawn from the given ones |
| TravelInputService.RecommendNew | services/travel_input_service.py:104-110 | on reason-less candidates, the recommender returns Recommended; each candidate ends with the reason of the last entry naming it (none for k <= 0); each returned one carries the reason of an entry with its name |
| TravelInputService.GenerateTravelCandidates | services/travel_input_service.py:46-117 | filter with size k, enrich, recommend. On failure, the enrichment's error with the session unchanged. Otherwise the enriched candidates are fresh objects whose contents are the enrichment's. The result is the first k of them named by the answer, in the answer's order. Each holds the reason of the last entry naming it. The result is stored as the session's list with the cursor at 0, and the parsed request is left as it was |
| OpenAiFilter.FilterCandidatesByUserPreferences | apis/openai_filter.py:55-95 | empty for no candidates or a size <= 0; otherwise a prefix of the matched candidates of exactly min(matched, 6 * size) items |
| OpenAiFilter.MatchedMembership | apis/openai_filter.py:90-93 | a candidate is matched exactly when its name is among the answer's names; unknown names add nothing |
| OpenAiFilter.MatchedSubsequence | apis/openai_filter.py:93 | the matched list keeps the candidates' order |
| OpenAiFilter.FilterResult | apis/openai_filter.py:50-95 | empty for no candidates or a size <= 0; otherwise the first min(matched, 6 * size) matched candidates, the whole matched list when it fits, a subsequence of the input whose members were all named |
| OpenAiScorer.RecommendTopKCandidates | apis/openai_scorer.py:47-83 | empty for no candidates or k <= 0; otherwise a prefix of the model's list, in its order, of length min(k, its length), names unchecked |
| OpenAiRecommender.NameIndexEntries | apis/openai_recommender.py:125-127 | every name maps to a candidate carrying that name |
| OpenAiRecommender.NameIndexLastWins | apis/openai_recommender.py:125-127 | a name is indexed exactly when a candidate carries it, and it maps to the last such candidate |
| OpenAiRecommender.OrderedAppend | apis/openai_recommender.py:129-137 | mapping a concatenated answer concatenates the mapped parts |
| OpenAiRecommender.OrderedMembers | apis/openai_recommender.py:129-137 | the ordered list is no longer than the answer and holds exactly the candidates some entry names; an answer naming none gives nothing |
| OpenAiRecommender.ReasonAfterLastEntry | apis/openai_recommender.py:135-137 | an unnamed candidate keeps its reason; a named one ends with the reason of the last entry naming it |
| OpenAiRecommender.OrderedHasReason | apis/openai_recommender.py:129-137 | each candidate in the ordered list ends with the reason of some entry carrying its name |
| OpenAiRecommender.RecommendTopKCandidates | apis/openai_recommender.py:83-140 | nothing and no reason written for no candidates or k <= 0; otherwise the first k named candidates in the answer's order, and every candidate, including those cut off, holds the reason of the last entry naming it |
| OpenAiFollowupHandler.LastPresented | apis/openai_followup_handler.py:9-20 | none exactly when the list is empty or the cursor is 0; otherwise the candidate before the cursor, or the last one when the cursor ran past the end |
| OpenAiFollowupHandler.RoundTripText | apis/openai_followup_handler.py:23-38 | "no information" exactly when both modes lack a time; otherwise the car part when present, then the public part when present |
| OpenAiFollowupHandler.FormatRoundTripHours | apis/openai_followup_handler.py:23-38 | appending the parts returns RoundTripText |
| OpenAiFollowupHandler.WeatherLabel | apis/openai_followup_handler.py:41-72 | every code is in the table and its label is the table's entry for it, non-empty and never the fallback text |
| OpenAiFollowupHandler.AllCodesLabelled | apis/openai_followup_handler.py:42-71 | the label table covers every weather code |
| OpenAiFollowupHandler.HandleFollowUp | apis/openai_followup_handler.py:84-130 | the fixed message when nothing was shown; otherwise the lines Lines gives for the sections the lower-cased question asks for |
| OpenAiFollowupHandler.SectionsAppended | apis/openai_followup_handler.py:93-125 | appending the sections one at a time builds the section list; no section is added exactly when no keyword matched |
| OpenAiFollowupHandler.SectionsMembers | apis/openai_followup_handler.py:101-123 | a line is a section exactly when its keyword group was asked for and it holds the candidate's data |
| OpenAiFollowupHandler.LinesOrder | apis/openai_followup_handler.py:89-128 | the answer has at least two lines, opens with the candidate's name, and follows the order name, reason, time, weather, address, score, hint |
| OpenAiFollowupHandler.LinesMembers | apis/openai_followup_handler.py:89-128 | the lines are exactly the name, each asked-for section with the candidate's data, and the hint when nothing was asked for |
| TravelOutputService.FoundFor | services/travel_output_service.py:17-26 | without a place id nothing is looked up; with one, the photos are that id's |
| TravelOutputService.ShortReview | services/travel_output_service.py:47-49 | a shortened review is at most 183 characters long |
| TravelOutputService.ShortReviewShape | services/travel_output_service.py:47-49 | a stripped review of at most 180 characters is kept; a longer one becomes its first 180 characters and "..."; at most 183 either way |
| TravelOutputService.ShortenReview | services/travel_output_service.py:47-49 | strip-then-cut returns ShortReview |
| TravelOutputService.ReviewItemsShort | services/travel_output_service.py:46-50 | every review line is a shortened review of some input review, at most 183 characters |
| TravelOutputService.AppendReviews | services/travel_output_service.py:43-50 | appends the review block of the first two reviews, shortened, or nothing when there are none |
| TravelOutputService.AppendPhotos | services/travel_output_service.py:53-57 | appends the photo block, one line per link, or nothing when there are none |
| TravelOutputService.AppendTravelTimes | services/travel_output_service.py:60-72 | appends the travel-time block when the map is not empty, with a car line and a public line for the present times |
| TravelOutputService.FormatCard | services/travel_output_service.py:29-72 | appending line by line builds CardLines |
| TravelOutputService.GenerateFinalOutput | services/travel_output_service.py:10-77 | no candidates: the fixed message and the cursor unchanged; cursor past the end: IndexError and the cursor unchanged; otherwise the card of the candidate under the cursor, and the cursor moves on by exactly one |
| TravelOutputService.CardHead | services/travel_output_service.py:29-35 | the card opens with the name, a blank line and the reason, or the fixed text without one |
| TravelOutputService.CardWithoutPlace | services/travel_output_service.py:17-57 | without a place id the card has no summary, review or photo lines |
| TravelOutputService.CardReviews | services/travel_output_service.py:43-50 | the review heading appears exactly when there are reviews; at most two review lines, each a shortened one of the first two reviews, at most 183 characters |
| TravelOutputService.CardTravelTimes | services/travel_output_service.py:60-72 | the travel-time heading appears exactly when the map is not empty; a car or public line appears exactly when that time is present |

## Left out

- Network and model calls: `safe_get`, the Google, Kakao and Open-Meteo wrappers and the
  language-model requests and prompts. Their answers are parameters.
- Concurrency of the long-travel search. The workers' completion order and the set of
  workers that raised are inputs, so any interleaving is covered.
- `make_ring_centers`, `max_travel_hours_to_radius_m` and `time_to_radius_m`. They are not
  defined in the shown utils/distance_helper.py, so the centers are an input.
- The front of generate_travel_candidates (services/travel_input_service.py:26-43): request
  parsing, origin geocoding and the radius and place search. The searched places are an
  input. That call passes no keyword, so it always takes the category path.
- Date parsing (`date.fromisoformat`), the departure-time formatting and the coordinate
  strings. Dates are compared as values.
- Text rendering: the emoji headings, the `:.1f` formatting of hours and temperatures, the
  wording around each value, and the final `"\n".join`. Lines are kept as structured values.
- Metrics.HitAtK: the default `k=3` of `hit_at_k` is not modelled. k is always passed.
- KakaoLocalCandidates.ToPlaces: a coordinate that `float()` cannot convert would raise a
  `ValueError`. Documents carry their coordinates as numbers.
- KakaoLocalCandidates.IsEnd: a `meta` that is present but null would make the `.get` on it
  raise. A missing `meta` is modelled, and so are a missing, null or boolean `is_end`.
- A missing key in a JSON document (a `KeyError`), for example a search document without
  `id`. Documents are records with every field present.
- A forecast that cannot be had is an error outcome (`WeatherUnavailable`). The shape of the
  forecast service's own failure is not modelled.
- main.py, evaluate_example.py, services/travel_intent_service.py and
  services/travel_recommendation_service.py are not part of this model.
- Text.Strip: only ASCII whitespace is stripped. Python also strips Unicode spaces.
- Text.Lower: only ASCII capitals are lowered. Python also lowers other scripts, while
  Hangul, used by every keyword, has no case.
- OpenAiFollowupHandler.WeatherLabel: the fallback text is never produced. The weather
  codes are exactly the 28 that the table lists, and a number outside them fails to decode
  (`Domain.WeatherCodeOf`).
- TravelOutputService.GenerateFinalOutput: the photo list is whatever the lookup returns.
  The three-photo cap is the lookup's own and is not enforced here.
- KakaoLocalCandidates.GetTravelCandidatesForLongTravel requires at least one center.
  With none, the thread pool refuses a worker count of zero. The ring always yields seven
  centers.
