/** Point-of-interest search around an origin (apis/kakao_local_candidates.py).
    The provider is an input: `fetch` gives the response to each request, None when the
    call failed. Every search returns the places found together with the requests issued. */
module KakaoLocalCandidates {
  import opened Domain
  import Text

  /** The provider's largest radius per query, in metres. */
  const MaxKakaoRadiusM: real := 20000.0
  /** The module's page cap, used by the category search. */
  const MaxPages: int := 1
  const PageSize: int := 15
  /** The keyword search's own page cap (a local that shadows MaxPages). */
  const KeywordMaxPages: int := 5

  datatype Criterion = Keyword(query: string) | Category(code: string)

  /** One provider request; x is the longitude and y the latitude. */
  datatype SearchRequest = SearchRequest(criterion: Criterion, x: real, y: real, radius: real, size: int, page: int)

  /** One raw document of a response page. */
  datatype Document = Document(id: string, placeName: string, roadAddressName: string, x: real, y: real)

  /** `meta.is_end` as the page carries it: missing (also when `meta` is missing), present
      but null, or a boolean. */
  datatype EndFlag = Missing | Null | Flag(value: bool)

  /** A decoded page: a missing `documents` key is the empty list. */
  datatype PageResponse = PageResponse(documents: seq<Document>, isEnd: EndFlag)

  type Fetch = SearchRequest -> Option<PageResponse>

  /** The places found and the requests issued, in order. */
  datatype Search = Search(places: seq<PlaceInfo>, requests: seq<SearchRequest>)

  datatype GeoPoint = GeoPoint(lat: real, lon: real)

  function ClampRadius(radius: real): (r: real)
    ensures r <= MaxKakaoRadiusM
    ensures r == radius || r == MaxKakaoRadiusM
    ensures radius <= MaxKakaoRadiusM ==> r == radius
  {
    if radius < MaxKakaoRadiusM then radius else MaxKakaoRadiusM
  }

  function ToPlace(d: Document): PlaceInfo
  {
    PlaceInfo(d.id, d.placeName, d.roadAddressName, d.y, d.x)
  }

  /** Each document mapped one-to-one, in order. */
  function ToPlaces(docs: seq<Document>): (r: seq<PlaceInfo>)
    ensures |r| == |docs|
    ensures forall i :: 0 <= i < |docs| ==> r[i] == ToPlace(docs[i])
  {
    seq(|docs|, i requires 0 <= i < |docs| => ToPlace(docs[i]))
  }

  /** The truth of `meta.get("is_end", True)`: a missing flag ends paging, a null one does
      not, and a boolean one is taken as it is. */
  function IsEnd(res: PageResponse): (e: bool)
    ensures e <==> res.isEnd == Missing || res.isEnd == Flag(true)
  {
    match res.isEnd
    case Missing => true
    case Null => false
    case Flag(b) => b
  }

  /** Whether paging goes on past a response. */
  predicate Continues(res: Option<PageResponse>)
  {
    res.Some? && res.value.documents != [] && !IsEnd(res.value)
  }

  /** The places a response contributes: none for a failed call. */
  function ResponsePlaces(res: Option<PageResponse>): seq<PlaceInfo>
  {
    if res.None? then [] else ToPlaces(res.value.documents)
  }

  function Then(a: Search, b: Search): Search
  {
    Search(a.places + b.places, a.requests + b.requests)
  }

  /** The search from `page` on, at most up to `maxPages`: stop after a failed call,
      an empty page or the last page. */
  function Paginate(fetch: Fetch, req: SearchRequest, page: int, maxPages: int): Search
    decreases maxPages - page
  {
    if page > maxPages then Search([], [])
    else
      var q := req.(page := page);
      var res := fetch(q);
      if res.None? || res.value.documents == [] then Search([], [q])
      else if IsEnd(res.value) then Search(ToPlaces(res.value.documents), [q])
      else Then(Search(ToPlaces(res.value.documents), [q]), Paginate(fetch, req, page + 1, maxPages))
  }

  /** The page loop shared by both searches: request pages 1, 2, ... up to maxPages. */
  method SearchPages(fetch: Fetch, req: SearchRequest, maxPages: int) returns (s: Search)
    ensures s == Paginate(fetch, req, 1, maxPages)
  {
    var places: seq<PlaceInfo> := [];
    var requests: seq<SearchRequest> := [];
    var page := 1;
    while page <= maxPages
      invariant page >= 1
      invariant Then(Search(places, requests), Paginate(fetch, req, page, maxPages)) == Paginate(fetch, req, 1, maxPages)
      decreases maxPages - page
    {
      ghost var done := Search(places, requests);
      var q := req.(page := page);
      requests := requests + [q];
      var res := fetch(q);
      if res.None? {
        assert Paginate(fetch, req, page, maxPages) == Search([], [q]);
        break;
      }
      var documents := res.value.documents;
      if documents == [] {
        assert Paginate(fetch, req, page, maxPages) == Search([], [q]);
        break;
      }
      places := AppendPlaces(places, documents);
      assert Search(places, requests) == Then(done, Search(ToPlaces(documents), [q]));
      if IsEnd(res.value) {
        assert Paginate(fetch, req, page, maxPages) == Search(ToPlaces(documents), [q]);
        break;
      }
      assert Paginate(fetch, req, page, maxPages)
          == Then(Search(ToPlaces(documents), [q]), Paginate(fetch, req, page + 1, maxPages));
      ThenAssoc(done, Search(ToPlaces(documents), [q]), Paginate(fetch, req, page + 1, maxPages));
      page := page + 1;
    }
    s := Search(places, requests);
  }

  lemma ThenAssoc(a: Search, b: Search, c: Search)
    ensures Then(Then(a, b), c) == Then(a, Then(b, c))
  {
    assert (a.places + b.places) + c.places == a.places + (b.places + c.places);
    assert (a.requests + b.requests) + c.requests == a.requests + (b.requests + c.requests);
  }

  /** `for doc in documents: all_places.append(PlaceInfo(...))`. */
  method AppendPlaces(places: seq<PlaceInfo>, documents: seq<Document>) returns (r: seq<PlaceInfo>)
    ensures r == places + ToPlaces(documents)
  {
    r := places;
    for j := 0 to |documents|
      invariant r == places + ToPlaces(documents[..j])
    {
      r := r + [ToPlace(documents[j])];
      assert ToPlaces(documents[..j + 1]) == ToPlaces(documents[..j]) + [ToPlace(documents[j])];
    }
    assert documents[..|documents|] == documents;
  }

  /** The pages requested are page, page + 1, ... in order; at most maxPages - page + 1 of
      them, and at least one when page <= maxPages. Paging goes on past a page only if it
      arrived, was non-empty and was not the last; and short of the cap it stops at the
      first page that ends the search. */
  lemma {:induction false} PaginateShape(fetch: Fetch, req: SearchRequest, page: int, maxPages: int)
    ensures var r := Paginate(fetch, req, page, maxPages);
            && (forall i :: 0 <= i < |r.requests| ==> r.requests[i] == req.(page := page + i))
            && (page <= maxPages ==> 1 <= |r.requests| <= maxPages - page + 1)
            && (page > maxPages ==> r.requests == [])
            && (forall i :: 0 <= i < |r.requests| - 1 ==> Continues(fetch(r.requests[i])))
            && (0 < |r.requests| < maxPages - page + 1 ==> !Continues(fetch(r.requests[|r.requests| - 1])))
    decreases maxPages - page
  {
    if page <= maxPages {
      var q := req.(page := page);
      if Continues(fetch(q)) {
        PaginateShape(fetch, req, page + 1, maxPages);
        var rest := Paginate(fetch, req, page + 1, maxPages);
        var r := Paginate(fetch, req, page, maxPages);
        assert r.requests == [q] + rest.requests;
        forall i | 0 <= i < |r.requests|
          ensures r.requests[i] == req.(page := page + i)
        {
          if i > 0 {
            assert r.requests[i] == rest.requests[i - 1];
          }
        }
      }
    }
  }

  /** The places are the documents of every request issued, concatenated in page order. */
  function PlacesOf(fetch: Fetch, requests: seq<SearchRequest>): seq<PlaceInfo>
  {
    if requests == [] then [] else ResponsePlaces(fetch(requests[0])) + PlacesOf(fetch, requests[1..])
  }

  lemma {:induction false} PaginatePlaces(fetch: Fetch, req: SearchRequest, page: int, maxPages: int)
    ensures var r := Paginate(fetch, req, page, maxPages);
            r.places == PlacesOf(fetch, r.requests)
    decreases maxPages - page
  {
    if page <= maxPages {
      var q := req.(page := page);
      var r := Paginate(fetch, req, page, maxPages);
      if Continues(fetch(q)) {
        PaginatePlaces(fetch, req, page + 1, maxPages);
        assert r.requests[1..] == Paginate(fetch, req, page + 1, maxPages).requests;
      } else {
        assert r.requests[1..] == [];
      }
    }
  }

  /** The template of every keyword request; the page is filled in per request. */
  function KeywordRequest(lat: real, lon: real, radius: real, keyword: string): SearchRequest
  {
    SearchRequest(Keyword(keyword), lon, lat, ClampRadius(radius), PageSize, 1)
  }

  function CategoryRequest(lat: real, lon: real, radius: real, category: PlaceCategory): SearchRequest
  {
    SearchRequest(Category(category.Code()), lon, lat, ClampRadius(radius), PageSize, 1)
  }

  function KeywordSearch(lat: real, lon: real, radius: real, keyword: string, fetch: Fetch): Search
  {
    Paginate(fetch, KeywordRequest(lat, lon, radius, keyword), 1, KeywordMaxPages)
  }

  /** The categories in order, each paged up to MaxPages. */
  function CategorySearch(lat: real, lon: real, radius: real, categories: seq<PlaceCategory>, fetch: Fetch): Search
    decreases |categories|
  {
    if categories == [] then Search([], [])
    else Then(CategorySearch(lat, lon, radius, categories[..|categories| - 1], fetch),
              Paginate(fetch, CategoryRequest(lat, lon, radius, categories[|categories| - 1]), 1, MaxPages))
  }

  /** get_travel_candidates_by_keyword_in_radius. */
  method GetTravelCandidatesByKeywordInRadius(lat: real, lon: real, radius: real, keyword: string, fetch: Fetch)
    returns (s: Search)
    ensures s == KeywordSearch(lat, lon, radius, keyword, fetch)
  {
    var radiusM := ClampRadius(radius);
    s := SearchPages(fetch, SearchRequest(Keyword(keyword), lon, lat, radiusM, PageSize, 1), KeywordMaxPages);
  }

  /** get_travel_candidates_by_category_in_radius. */
  method GetTravelCandidatesByCategoryInRadius(lat: real, lon: real, radius: real, categories: seq<PlaceCategory>, fetch: Fetch)
    returns (s: Search)
    ensures s == CategorySearch(lat, lon, radius, categories, fetch)
  {
    var radiusM := ClampRadius(radius);
    s := Search([], []);
    for i := 0 to |categories|
      invariant s == CategorySearch(lat, lon, radius, categories[..i], fetch)
    {
      var category := categories[i];
      var pages := SearchPages(fetch, SearchRequest(Category(category.Code()), lon, lat, radiusM, PageSize, 1), MaxPages);
      assert categories[..i + 1][..i] == categories[..i];
      s := Then(s, pages);
    }
    assert categories[..|categories|] == categories;
  }

  /** A keyword search asks for pages 1, 2, ... of the stripped-down keyword query, at most
      five of them, always at the clamped radius. */
  lemma KeywordSearchRequests(lat: real, lon: real, radius: real, keyword: string, fetch: Fetch)
    ensures var r := KeywordSearch(lat, lon, radius, keyword, fetch);
            && 1 <= |r.requests| <= KeywordMaxPages
            && forall i :: 0 <= i < |r.requests| ==>
                 && r.requests[i].criterion == Keyword(keyword)
                 && r.requests[i].page == i + 1
                 && r.requests[i].radius == ClampRadius(radius) <= MaxKakaoRadiusM
                 && r.requests[i].size == PageSize
  {
    PaginateShape(fetch, KeywordRequest(lat, lon, radius, keyword), 1, KeywordMaxPages);
  }

  /** With a cap of one page, the category search issues exactly one request per category,
      for page 1, in the order of the categories, at the clamped radius. */
  lemma {:induction false} CategorySearchRequests(lat: real, lon: real, radius: real, categories: seq<PlaceCategory>, fetch: Fetch)
    ensures var r := CategorySearch(lat, lon, radius, categories, fetch);
            && |r.requests| == |categories|
            && forall i :: 0 <= i < |categories| ==>
                 r.requests[i] == SearchRequest(Category(categories[i].Code()), lon, lat, ClampRadius(radius), PageSize, 1)
    decreases |categories|
  {
    if categories != [] {
      var init := categories[..|categories| - 1];
      var last := categories[|categories| - 1];
      CategorySearchRequests(lat, lon, radius, init, fetch);
      PaginateShape(fetch, CategoryRequest(lat, lon, radius, last), 1, MaxPages);
    }
  }

  /** The places of a category search are the documents of its requests, in order. */
  lemma {:induction false} CategorySearchPlaces(lat: real, lon: real, radius: real, categories: seq<PlaceCategory>, fetch: Fetch)
    ensures var r := CategorySearch(lat, lon, radius, categories, fetch);
            r.places == PlacesOf(fetch, r.requests)
    decreases |categories|
  {
    if categories != [] {
      var init := categories[..|categories| - 1];
      var pageReq := CategoryRequest(lat, lon, radius, categories[|categories| - 1]);
      CategorySearchPlaces(lat, lon, radius, init, fetch);
      PaginatePlaces(fetch, pageReq, 1, MaxPages);
      PlacesOfAppend(fetch, CategorySearch(lat, lon, radius, init, fetch).requests, Paginate(fetch, pageReq, 1, MaxPages).requests);
    }
  }

  lemma {:induction false} PlacesOfAppend(fetch: Fetch, a: seq<SearchRequest>, b: seq<SearchRequest>)
    ensures PlacesOf(fetch, a + b) == PlacesOf(fetch, a) + PlacesOf(fetch, b)
    decreases |a|
  {
    if a != [] {
      assert (a + b)[0] == a[0];
      assert (a + b)[1..] == a[1..] + b;
      PlacesOfAppend(fetch, a[1..], b);
    } else {
      assert a + b == b;
    }
  }

  /** A keyword selects the keyword search when something is left after stripping it. */
  predicate UsesKeyword(keyword: Option<string>)
  {
    keyword.Some? && Text.Strip(keyword.value) != ""
  }

  function ShortTravelSearch(lat: real, lon: real, radius: real, categories: seq<PlaceCategory>, keyword: Option<string>, fetch: Fetch): Search
  {
    if UsesKeyword(keyword) then KeywordSearch(lat, lon, radius, Text.Strip(keyword.value), fetch)
    else CategorySearch(lat, lon, radius, categories, fetch)
  }

  /** get_travel_candidates_for_short_travel. */
  method GetTravelCandidatesForShortTravel(lat: real, lon: real, radius: real, categories: seq<PlaceCategory>, keyword: Option<string>, fetch: Fetch)
    returns (s: Search)
    ensures s == ShortTravelSearch(lat, lon, radius, categories, keyword, fetch)
  {
    if keyword.Some? && Text.Strip(keyword.value) != "" {
      s := GetTravelCandidatesByKeywordInRadius(lat, lon, radius, Text.Strip(keyword.value), fetch);
    } else {
      s := GetTravelCandidatesByCategoryInRadius(lat, lon, radius, categories, fetch);
    }
  }

  /** Dispatch: a keyword with non-blank content makes every request a query for the
      stripped keyword; otherwise every request is a category request. Either way no
      request exceeds the provider's radius. */
  lemma ShortTravelDispatch(lat: real, lon: real, radius: real, categories: seq<PlaceCategory>, keyword: Option<string>, fetch: Fetch)
    ensures var r := ShortTravelSearch(lat, lon, radius, categories, keyword, fetch);
            && (UsesKeyword(keyword) ==> forall q :: q in r.requests ==> q.criterion == Keyword(Text.Strip(keyword.value)))
            && (!UsesKeyword(keyword) ==> forall q :: q in r.requests ==> q.criterion.Category?)
            && (forall q :: q in r.requests ==> q.radius == ClampRadius(radius) <= MaxKakaoRadiusM)
  {
    if UsesKeyword(keyword) {
      KeywordSearchRequests(lat, lon, radius, Text.Strip(keyword.value), fetch);
    } else {
      CategorySearchRequests(lat, lon, radius, categories, fetch);
    }
  }

  // ---- the long-travel path: one worker per center, merged and de-duplicated ----

  /** Each worker finishes exactly once: the completion order lists every center index once. */
  predicate IsCompletionOrder(order: seq<nat>, n: nat)
  {
    && |order| == n
    && (forall i :: 0 <= i < |order| ==> order[i] < n)
    && (forall w :: 0 <= w < n ==> w in order)
  }

  /** What worker w adds to the merge: its search at the provider's full radius around its
      center, or nothing if it raised. */
  function WorkerPlaces(centers: seq<GeoPoint>, categories: seq<PlaceCategory>, keyword: Option<string>, fetch: Fetch, raised: set<nat>, w: nat): seq<PlaceInfo>
    requires w < |centers|
  {
    if w in raised then []
    else ShortTravelSearch(centers[w].lat, centers[w].lon, MaxKakaoRadiusM, categories, keyword, fetch).places
  }

  /** The workers' places concatenated in completion order. */
  function Merged(centers: seq<GeoPoint>, categories: seq<PlaceCategory>, keyword: Option<string>, fetch: Fetch, raised: set<nat>, order: seq<nat>): seq<PlaceInfo>
    requires forall i :: 0 <= i < |order| ==> order[i] < |centers|
    decreases |order|
  {
    if order == [] then []
    else Merged(centers, categories, keyword, fetch, raised, order[..|order| - 1])
         + WorkerPlaces(centers, categories, keyword, fetch, raised, order[|order| - 1])
  }

  function Ids(xs: seq<PlaceInfo>): set<string>
  {
    set p | p in xs :: p.id
  }

  /** Keep the first place of every id, in order. */
  function Dedup(xs: seq<PlaceInfo>): seq<PlaceInfo>
    decreases |xs|
  {
    if xs == [] then []
    else
      var d := Dedup(xs[..|xs| - 1]);
      var x := xs[|xs| - 1];
      if x.id in Ids(d) then d else d + [x]
  }

  /** get_travel_candidates_for_long_travel: run the workers, extend the merge with each
      finished worker's places, then drop every place whose id was already seen. */
  method GetTravelCandidatesForLongTravel(centers: seq<GeoPoint>, categories: seq<PlaceCategory>, keyword: Option<string>, fetch: Fetch, order: seq<nat>, raised: set<nat>)
    returns (uniquePlaces: seq<PlaceInfo>)
    requires |centers| > 0
    requires IsCompletionOrder(order, |centers|)
    ensures uniquePlaces == Dedup(Merged(centers, categories, keyword, fetch, raised, order))
  {
    var allPlaces := MergeWorkerPlaces(centers, categories, keyword, fetch, order, raised);
    uniquePlaces := DedupPlaces(allPlaces);
  }

  /** The collecting half: each finished worker's places are appended in completion order;
      a worker that raised adds nothing. */
  method MergeWorkerPlaces(centers: seq<GeoPoint>, categories: seq<PlaceCategory>, keyword: Option<string>, fetch: Fetch, order: seq<nat>, raised: set<nat>)
    returns (allPlaces: seq<PlaceInfo>)
    requires forall i :: 0 <= i < |order| ==> order[i] < |centers|
    ensures allPlaces == Merged(centers, categories, keyword, fetch, raised, order)
  {
    allPlaces := [];
    for j := 0 to |order|
      invariant allPlaces == Merged(centers, categories, keyword, fetch, raised, order[..j])
    {
      var w := order[j];
      MergedStep(centers, categories, keyword, fetch, raised, order, j);
      if w !in raised {
        var s := GetTravelCandidatesForShortTravel(centers[w].lat, centers[w].lon, MaxKakaoRadiusM, categories, keyword, fetch);
        allPlaces := allPlaces + s.places;
      }
    }
    assert order[..|order|] == order;
  }

  /** The de-duplicating half: a set of seen ids, and a place is kept only when its id is new. */
  method DedupPlaces(allPlaces: seq<PlaceInfo>) returns (uniquePlaces: seq<PlaceInfo>)
    ensures uniquePlaces == Dedup(allPlaces)
  {
    var seenIds: set<string> := {};
    uniquePlaces := [];
    for i := 0 to |allPlaces|
      invariant uniquePlaces == Dedup(allPlaces[..i])
      invariant seenIds == Ids(uniquePlaces)
    {
      var place := allPlaces[i];
      DedupStep(allPlaces, i);
      if place.id in seenIds {
        continue;
      }
      IdsAppend(uniquePlaces, place);
      seenIds := seenIds + {place.id};
      uniquePlaces := uniquePlaces + [place];
    }
    assert allPlaces[..|allPlaces|] == allPlaces;
  }

  /** get_travel_candidates: the multi-center path exactly when the radius exceeds the
      provider's limit. The centers, completion order and failed workers describe that
      path's run and are not consulted otherwise. */
  method GetTravelCandidates(originLat: real, originLon: real, radius: real, categories: seq<PlaceCategory>, keyword: Option<string>,
                             fetch: Fetch, centers: seq<GeoPoint>, order: seq<nat>, raised: set<nat>)
    returns (places: seq<PlaceInfo>)
    requires radius > MaxKakaoRadiusM ==> |centers| > 0 && IsCompletionOrder(order, |centers|)
    ensures radius > MaxKakaoRadiusM ==> places == Dedup(Merged(centers, categories, keyword, fetch, raised, order))
    ensures radius <= MaxKakaoRadiusM ==> places == ShortTravelSearch(originLat, originLon, radius, categories, keyword, fetch).places
  {
    if radius > MaxKakaoRadiusM {
      places := GetTravelCandidatesForLongTravel(centers, categories, keyword, fetch, order, raised);
    } else {
      var s := GetTravelCandidatesForShortTravel(originLat, originLon, radius, categories, keyword, fetch);
      places := s.places;
    }
  }

  // ---- properties of the merge and the de-duplication ----

  lemma MergedStep(centers: seq<GeoPoint>, categories: seq<PlaceCategory>, keyword: Option<string>, fetch: Fetch, raised: set<nat>, order: seq<nat>, j: nat)
    requires forall i :: 0 <= i < |order| ==> order[i] < |centers|
    requires j < |order|
    ensures Merged(centers, categories, keyword, fetch, raised, order[..j + 1])
         == Merged(centers, categories, keyword, fetch, raised, order[..j]) + WorkerPlaces(centers, categories, keyword, fetch, raised, order[j])
  {
    assert order[..j + 1][..j] == order[..j];
  }

  lemma DedupStep(xs: seq<PlaceInfo>, i: nat)
    requires i < |xs|
    ensures Dedup(xs[..i + 1]) == if xs[i].id in Ids(Dedup(xs[..i])) then Dedup(xs[..i]) else Dedup(xs[..i]) + [xs[i]]
  {
    assert xs[..i + 1][..i] == xs[..i];
  }

  lemma IdsConcat(a: seq<PlaceInfo>, b: seq<PlaceInfo>)
    ensures Ids(a + b) == Ids(a) + Ids(b)
  {
    assert forall p :: p in a + b <==> p in a || p in b;
  }

  lemma IdsAppend(xs: seq<PlaceInfo>, x: PlaceInfo)
    ensures Ids(xs + [x]) == Ids(xs) + {x.id}
  {
    assert forall p :: p in xs + [x] <==> p in xs || p == x;
  }

  /** Every id of the input survives, and no other id appears. */
  lemma {:induction false} DedupIds(xs: seq<PlaceInfo>)
    ensures Ids(Dedup(xs)) == Ids(xs)
    decreases |xs|
  {
    if xs != [] {
      var init := xs[..|xs| - 1];
      var x := xs[|xs| - 1];
      DedupIds(init);
      assert xs == init + [x];
      IdsAppend(init, x);
      IdsAppend(Dedup(init), x);
    }
  }

  predicate DistinctIds(xs: seq<PlaceInfo>)
  {
    forall i, j :: 0 <= i < j < |xs| ==> xs[i].id != xs[j].id
  }

  /** The output ids are pairwise distinct. */
  lemma {:induction false} DedupDistinct(xs: seq<PlaceInfo>)
    ensures DistinctIds(Dedup(xs))
    decreases |xs|
  {
    if xs != [] {
      var init := xs[..|xs| - 1];
      var x := xs[|xs| - 1];
      DedupDistinct(init);
      var d := Dedup(init);
      if x.id !in Ids(d) {
        forall i | 0 <= i < |d|
          ensures d[i].id != x.id
        {
          assert d[i] in d;
        }
      }
    }
  }

  /** A list whose ids are already distinct is left as it is. */
  lemma {:induction false} DedupOfDistinct(xs: seq<PlaceInfo>)
    requires DistinctIds(xs)
    ensures Dedup(xs) == xs
    decreases |xs|
  {
    if xs != [] {
      var init := xs[..|xs| - 1];
      var x := xs[|xs| - 1];
      assert DistinctIds(init);
      DedupOfDistinct(init);
    }
  }

  /** De-duplicating twice is de-duplicating once. */
  lemma DedupIdempotent(xs: seq<PlaceInfo>)
    ensures Dedup(Dedup(xs)) == Dedup(xs)
  {
    DedupDistinct(xs);
    DedupOfDistinct(Dedup(xs));
  }

  /** Position i holds the first place with its id. */
  predicate IsFirst(xs: seq<PlaceInfo>, i: int)
    requires 0 <= i < |xs|
  {
    forall j :: 0 <= j < i ==> xs[j].id != xs[i].id
  }

  /** The positions of first occurrences, ascending. */
  function FirstOccurrences(xs: seq<PlaceInfo>): seq<nat>
    decreases |xs|
  {
    if xs == [] then []
    else
      var f := FirstOccurrences(xs[..|xs| - 1]);
      if IsFirst(xs, |xs| - 1) then f + [|xs| - 1] else f
  }

  /** `d` lists `xs` at the positions `f`, those positions ascend, and they are exactly
      the positions of first occurrences. */
  predicate PicksFirstOccurrences(xs: seq<PlaceInfo>, d: seq<PlaceInfo>, f: seq<nat>)
  {
    && |d| == |f|
    && (forall j :: 0 <= j < |f| ==> f[j] < |xs| && d[j] == xs[f[j]])
    && (forall a, b :: 0 <= a < b < |f| ==> f[a] < f[b])
    && (forall i :: 0 <= i < |xs| ==> (i in f <==> IsFirst(xs, i)))
  }

  /** The output is exactly the first occurrence of each id, in input order: its j-th
      element is the input at the j-th first-occurrence position, those positions
      ascend, and they are all the first-occurrence positions. */
  lemma {:induction false} DedupKeepsFirstOccurrences(xs: seq<PlaceInfo>)
    ensures PicksFirstOccurrences(xs, Dedup(xs), FirstOccurrences(xs))
    decreases |xs|
  {
    if xs != [] {
      var n := |xs| - 1;
      DedupKeepsFirstOccurrences(xs[..n]);
      LastIsFirstIff(xs);
      if IsFirst(xs, n) {
        PicksNewFirst(xs, Dedup(xs[..n]), FirstOccurrences(xs[..n]));
      } else {
        PicksRepeat(xs, Dedup(xs[..n]), FirstOccurrences(xs[..n]));
      }
    }
  }

  lemma PicksNewFirst(xs: seq<PlaceInfo>, d: seq<PlaceInfo>, f: seq<nat>)
    requires xs != [] && IsFirst(xs, |xs| - 1)
    requires PicksFirstOccurrences(xs[..|xs| - 1], d, f)
    ensures PicksFirstOccurrences(xs, d + [xs[|xs| - 1]], f + [|xs| - 1])
  {
    FirstInPrefix(xs);
  }

  lemma PicksRepeat(xs: seq<PlaceInfo>, d: seq<PlaceInfo>, f: seq<nat>)
    requires xs != [] && !IsFirst(xs, |xs| - 1)
    requires PicksFirstOccurrences(xs[..|xs| - 1], d, f)
    ensures PicksFirstOccurrences(xs, d, f)
  {
    FirstInPrefix(xs);
  }

  /** The last place is a first occurrence exactly when its id is new to the
      de-duplicated prefix. */
  lemma LastIsFirstIff(xs: seq<PlaceInfo>)
    requires xs != []
    ensures IsFirst(xs, |xs| - 1) <==> xs[|xs| - 1].id !in Ids(Dedup(xs[..|xs| - 1]))
  {
    var n := |xs| - 1;
    var init := xs[..n];
    var x := xs[n];
    DedupIds(init);
    if x.id in Ids(Dedup(init)) {
      var p :| p in init && p.id == x.id;
      var k :| 0 <= k < n && init[k] == p;
      assert xs[k].id == x.id;
    } else {
      forall j | 0 <= j < n
        ensures xs[j].id != x.id
      {
        assert init[j] in init;
      }
    }
  }

  /** Being a first occurrence does not depend on what follows. */
  lemma FirstInPrefix(xs: seq<PlaceInfo>)
    requires xs != []
    ensures forall i :: 0 <= i < |xs| - 1 ==> (IsFirst(xs[..|xs| - 1], i) <==> IsFirst(xs, i))
  {
  }

  /** Whether one of the workers in `order` found `id`. */
  predicate FoundBy(centers: seq<GeoPoint>, categories: seq<PlaceCategory>, keyword: Option<string>, fetch: Fetch, raised: set<nat>, order: seq<nat>, id: string)
    requires forall i :: 0 <= i < |order| ==> order[i] < |centers|
    decreases |order|
  {
    order != [] &&
    (FoundBy(centers, categories, keyword, fetch, raised, order[..|order| - 1], id)
     || id in Ids(WorkerPlaces(centers, categories, keyword, fetch, raised, order[|order| - 1])))
  }

  lemma {:induction false} MergedIdsFound(centers: seq<GeoPoint>, categories: seq<PlaceCategory>, keyword: Option<string>, fetch: Fetch, raised: set<nat>, order: seq<nat>, id: string)
    requires forall i :: 0 <= i < |order| ==> order[i] < |centers|
    ensures id in Ids(Merged(centers, categories, keyword, fetch, raised, order))
            <==> FoundBy(centers, categories, keyword, fetch, raised, order, id)
    decreases |order|
  {
    if order != [] {
      var init := order[..|order| - 1];
      MergedIdsFound(centers, categories, keyword, fetch, raised, init, id);
      IdsConcat(Merged(centers, categories, keyword, fetch, raised, init),
                WorkerPlaces(centers, categories, keyword, fetch, raised, order[|order| - 1]));
    }
  }

  lemma {:induction false} FoundByWitness(centers: seq<GeoPoint>, categories: seq<PlaceCategory>, keyword: Option<string>, fetch: Fetch, raised: set<nat>, order: seq<nat>, id: string)
    requires forall i :: 0 <= i < |order| ==> order[i] < |centers|
    ensures FoundBy(centers, categories, keyword, fetch, raised, order, id)
            <==> exists w :: w in order && id in Ids(WorkerPlaces(centers, categories, keyword, fetch, raised, w))
    decreases |order|
  {
    if order != [] {
      var init := order[..|order| - 1];
      var last := order[|order| - 1];
      FoundByWitness(centers, categories, keyword, fetch, raised, init, id);
      SnocMembers(order);
    }
  }

  lemma SnocMembers(order: seq<nat>)
    requires order != []
    ensures forall w :: w in order <==> w in order[..|order| - 1] || w == order[|order| - 1]
  {
    assert order == order[..|order| - 1] + [order[|order| - 1]];
  }

  /** An id is among the merge's ids exactly when some worker that finished found it. */
  lemma MergedIds(centers: seq<GeoPoint>, categories: seq<PlaceCategory>, keyword: Option<string>, fetch: Fetch, raised: set<nat>, order: seq<nat>, id: string)
    requires forall i :: 0 <= i < |order| ==> order[i] < |centers|
    ensures id in Ids(Merged(centers, categories, keyword, fetch, raised, order))
            <==> exists w :: w in order && id in Ids(WorkerPlaces(centers, categories, keyword, fetch, raised, w))
  {
    MergedIdsFound(centers, categories, keyword, fetch, raised, order, id);
    FoundByWitness(centers, categories, keyword, fetch, raised, order, id);
  }

  /** Whatever order the workers finish in, the merged and de-duplicated result has the
      same set of ids. */
  lemma MergeOrderIndependent(centers: seq<GeoPoint>, categories: seq<PlaceCategory>, keyword: Option<string>, fetch: Fetch, raised: set<nat>, order1: seq<nat>, order2: seq<nat>)
    requires IsCompletionOrder(order1, |centers|) && IsCompletionOrder(order2, |centers|)
    ensures Ids(Dedup(Merged(centers, categories, keyword, fetch, raised, order1)))
         == Ids(Dedup(Merged(centers, categories, keyword, fetch, raised, order2)))
  {
    DedupIds(Merged(centers, categories, keyword, fetch, raised, order1));
    DedupIds(Merged(centers, categories, keyword, fetch, raised, order2));
    forall id
      ensures id in Ids(Merged(centers, categories, keyword, fetch, raised, order1))
          <==> id in Ids(Merged(centers, categories, keyword, fetch, raised, order2))
    {
      MergedIds(centers, categories, keyword, fetch, raised, order1, id);
      MergedIds(centers, categories, keyword, fetch, raised, order2, id);
    }
  }

  /** When every worker raised, the long-travel path returns nothing and does not fail. */
  lemma {:induction false} AllWorkersRaised(centers: seq<GeoPoint>, categories: seq<PlaceCategory>, keyword: Option<string>, fetch: Fetch, raised: set<nat>, order: seq<nat>)
    requires forall i :: 0 <= i < |order| ==> order[i] < |centers| && order[i] in raised
    ensures Merged(centers, categories, keyword, fetch, raised, order) == []
    decreases |order|
  {
    if order != [] {
      AllWorkersRaised(centers, categories, keyword, fetch, raised, order[..|order| - 1]);
    }
  }

  /** Every request a worker issues uses the provider's full radius. */
  lemma WorkerRadius(centers: seq<GeoPoint>, categories: seq<PlaceCategory>, keyword: Option<string>, fetch: Fetch, w: nat)
    requires w < |centers|
    ensures forall q :: q in ShortTravelSearch(centers[w].lat, centers[w].lon, MaxKakaoRadiusM, categories, keyword, fetch).requests
                     ==> q.radius == MaxKakaoRadiusM
  {
    ShortTravelDispatch(centers[w].lat, centers[w].lon, MaxKakaoRadiusM, categories, keyword, fetch);
  }
}
