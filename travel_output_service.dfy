/** generate_final_output (services/travel_output_service.py): formats the candidate under
    the session cursor as a card and moves the cursor on. The place-lookup service is a
    parameter. Lines are kept as values; their emoji headings and the one-decimal
    rendering of hours are not part of this model. */
module TravelOutputService {
  import opened Domain
  import opened Text
  import opened Seqs

  const NoCandidatesText: string := "추천할 여행지가 없습니다. 새로운 여행 계획을 입력해 주세요."
  const NoReasonText: string := "추천 이유 정보가 없습니다."
  const MaxReviews: nat := 2
  const MaxReviewLength: nat := 180
  const Ellipsis: string := "..."

  /** What the place-lookup service returns for a description. */
  datatype Description = Description(summary: Option<string>, reviews: seq<string>)

  /** The place-lookup service: place id by name, description and photo links by id. */
  datatype PlaceLookup = PlaceLookup(placeIdFor: string -> Option<string>,
                                     descriptionFor: string -> Option<Description>,
                                     photosFor: string -> seq<string>)

  /** What the lookup found for a name. */
  datatype Found = Found(summary: Option<string>, reviews: seq<string>, photos: seq<string>)

  /** One line of the card. */
  datatype CardLine =
    | Title(name: string)
    | Blank
    | ReasonBlock(reason: string)
    | SummaryBlock(summary: string)
    | ReviewsHeader
    | ReviewItem(review: string)
    | PhotosHeader
    | PhotoItem(url: string)
    | TravelTimeHeader
    | CarTime(hours: real)
    | PublicTime(hours: real)

  /** The outcome: the "nothing to recommend" message or a card. */
  datatype Output = NoCandidates | Card(lines: seq<CardLine>)

  /** Indexing past the end of the candidate list raises IndexError. */
  datatype OutputError = IndexError

  /** Lines 17-26: with no place id nothing is looked up; a missing description counts as
      an empty one. */
  function FoundFor(name: string, lookup: PlaceLookup): (f: Found)
    ensures !Truthy(lookup.placeIdFor(name)) ==> f == Found(None, [], [])
    ensures Truthy(lookup.placeIdFor(name)) ==> f.photos == lookup.photosFor(lookup.placeIdFor(name).value)
  {
    var placeId := lookup.placeIdFor(name);
    if !Truthy(placeId) then Found(None, [], [])
    else
      var description := lookup.descriptionFor(placeId.value);
      Found(if description.Some? then description.value.summary else None,
            if description.Some? then description.value.reviews else [],
            lookup.photosFor(placeId.value))
  }

  /** A stripped review, cut to 180 characters followed by "..." when longer. */
  function ShortReview(review: string): (short: string)
    ensures |short| <= MaxReviewLength + |Ellipsis|
  {
    var short := Strip(review);
    if |short| > MaxReviewLength then short[..MaxReviewLength] + Ellipsis else short
  }

  /** A shortened review is the stripped review when that has at most 180 characters, and
      otherwise its first 180 characters followed by "..."; either way at most 183. */
  lemma ShortReviewShape(review: string)
    ensures |ShortReview(review)| <= MaxReviewLength + |Ellipsis|
    ensures |Strip(review)| <= MaxReviewLength ==> ShortReview(review) == Strip(review)
    ensures |Strip(review)| > MaxReviewLength ==>
              && |ShortReview(review)| == MaxReviewLength + |Ellipsis|
              && ShortReview(review)[..MaxReviewLength] == Strip(review)[..MaxReviewLength]
              && ShortReview(review)[MaxReviewLength..] == Ellipsis
  {
  }

  function ReviewItems(reviews: seq<string>): (items: seq<CardLine>)
    ensures |items| == |reviews|
    decreases |reviews|
  {
    if reviews == [] then []
    else ReviewItems(reviews[..|reviews| - 1]) + [ReviewItem(ShortReview(reviews[|reviews| - 1]))]
  }

  /** Every review line holds a shortened review of at most 183 characters. */
  lemma {:induction false} ReviewItemsShort(reviews: seq<string>)
    ensures forall l :: l in ReviewItems(reviews) ==>
              l.ReviewItem? && |l.review| <= MaxReviewLength + |Ellipsis| && exists r :: r in reviews && l.review == ShortReview(r)
    decreases |reviews|
  {
    if reviews != [] {
      var init := reviews[..|reviews| - 1];
      ReviewItemsShort(init);
      assert forall r :: r in init ==> r in reviews;
      assert reviews[|reviews| - 1] in reviews;
    }
  }

  function PhotoItems(urls: seq<string>): (items: seq<CardLine>)
    ensures |items| == |urls|
    ensures forall i :: 0 <= i < |items| ==> items[i] == PhotoItem(urls[i])
  {
    seq(|urls|, i requires 0 <= i < |urls| => PhotoItem(urls[i]))
  }

  function Block(present: bool, lines: seq<CardLine>): seq<CardLine>
  {
    if present then [Blank] + lines else []
  }

  function SummaryLines(summary: Option<string>): seq<CardLine>
  {
    if Truthy(summary) then [Blank, SummaryBlock(summary.value)] else []
  }

  lemma ReviewItemsSnoc(reviews: seq<string>, i: nat)
    requires i < |reviews|
    ensures ReviewItems(reviews[..i + 1]) == ReviewItems(reviews[..i]) + [ReviewItem(ShortReview(reviews[i]))]
  {
    assert reviews[..i + 1][..i] == reviews[..i];
  }

  lemma PhotoItemsSnoc(urls: seq<string>, url: string)
    ensures PhotoItems(urls + [url]) == PhotoItems(urls) + [PhotoItem(url)]
  {
  }

  function TravelLines(rth: RoundTripHours): seq<CardLine>
  {
    (if HoursBy(rth, Car).Some? then [CarTime(HoursBy(rth, Car).value)] else [])
    + (if HoursBy(rth, Public).Some? then [PublicTime(HoursBy(rth, Public).value)] else [])
  }

  /** The card of a candidate, block by block. */
  function CardLines(c: DestinationCandidate, found: Found): seq<CardLine>
    reads c
  {
    [Title(c.placeInfo.placeName), Blank, ReasonBlock(OrElse(c.reason, NoReasonText))]
    + SummaryLines(found.summary)
    + Block(found.reviews != [], [ReviewsHeader] + ReviewItems(Take(found.reviews, MaxReviews)))
    + Block(found.photos != [], [PhotosHeader] + PhotoItems(found.photos))
    + Block(|c.roundTripHours| > 0, [TravelTimeHeader] + TravelLines(c.roundTripHours))
  }

  /** Lines 47-49: strip, then cut a review longer than 180 characters. */
  method ShortenReview(review: string) returns (short: string)
    ensures short == ShortReview(review)
  {
    short := Strip(review);
    if |short| > MaxReviewLength {
      short := short[..MaxReviewLength] + Ellipsis;
    }
  }

  /** Lines 43-50: the review block, at most two reviews, each shortened. */
  method AppendReviews(lines: seq<CardLine>, reviews: seq<string>) returns (r: seq<CardLine>)
    ensures r == lines + Block(reviews != [], [ReviewsHeader] + ReviewItems(Take(reviews, MaxReviews)))
  {
    r := lines;
    if reviews == [] {
      assert r == lines + [];
      return;
    }
    r := r + [Blank];
    r := r + [ReviewsHeader];
    ghost var header := r;
    var shown := Take(reviews, MaxReviews);
    for i := 0 to |shown|
      invariant r == header + ReviewItems(shown[..i])
    {
      var short := ShortenReview(shown[i]);
      ReviewItemsSnoc(shown, i);
      Assoc(header, ReviewItems(shown[..i]), [ReviewItem(short)]);
      r := r + [ReviewItem(short)];
    }
    assert shown[..|shown|] == shown;
    AssocBlock(lines, Blank, ReviewsHeader, ReviewItems(shown));
  }

  /** Lines 53-57: the photo block, one line per link. */
  method AppendPhotos(lines: seq<CardLine>, urls: seq<string>) returns (r: seq<CardLine>)
    ensures r == lines + Block(urls != [], [PhotosHeader] + PhotoItems(urls))
  {
    r := lines;
    if urls == [] {
      assert r == lines + [];
      return;
    }
    r := r + [Blank];
    r := r + [PhotosHeader];
    ghost var header := r;
    for i := 0 to |urls|
      invariant r == header + PhotoItems(urls[..i])
    {
      assert urls[..i + 1] == urls[..i] + [urls[i]];
      PhotoItemsSnoc(urls[..i], urls[i]);
      r := r + [PhotoItem(urls[i])];
    }
    assert urls[..|urls|] == urls;
    Assoc(lines, [Blank, PhotosHeader], PhotoItems(urls));
  }

  /** Lines 60-72: the travel-time block when the map is not empty. */
  method AppendTravelTimes(lines: seq<CardLine>, rth: RoundTripHours) returns (r: seq<CardLine>)
    ensures r == lines + Block(|rth| > 0, [TravelTimeHeader] + TravelLines(rth))
  {
    r := lines;
    if |rth| == 0 {
      assert r == lines + [];
      return;
    }
    var car := HoursBy(rth, Car);
    var pub := HoursBy(rth, Public);
    r := r + [Blank];
    r := r + [TravelTimeHeader];
    ghost var header := r;
    if car.Some? {
      r := r + [CarTime(car.value)];
    }
    ghost var carLines := if car.Some? then [CarTime(car.value)] else [];
    assert r == header + carLines;
    if pub.Some? {
      r := r + [PublicTime(pub.value)];
    }
    ghost var pubLines := if pub.Some? then [PublicTime(pub.value)] else [];
    assert r == header + carLines + pubLines;
    Assoc(header, carLines, pubLines);
    Assoc(lines, [Blank, TravelTimeHeader], TravelLines(rth));
  }

  /** Appending a blank line, a heading and items one after the other appends the block. */
  lemma AssocBlock(lines: seq<CardLine>, blank: CardLine, header: CardLine, items: seq<CardLine>)
    ensures lines + [blank] + [header] + items == lines + ([blank] + ([header] + items))
  {
    Assoc([blank], [header], items);
    Assoc(lines, [blank], [header]);
    Assoc(lines, [blank] + [header], items);
  }

  /** Lines 29-72: the card of `candidate` from what the lookup found. */
  method FormatCard(candidate: DestinationCandidate, summary: Option<string>, reviews: seq<string>, photos: seq<string>)
    returns (lines: seq<CardLine>)
    ensures lines == CardLines(candidate, Found(summary, reviews, photos))
  {
    var name := candidate.placeInfo.placeName;
    var reason := OrElse(candidate.reason, NoReasonText);
    lines := [];
    lines := lines + [Title(name)];
    lines := lines + [Blank];
    lines := lines + [ReasonBlock(reason)];
    assert lines == [Title(name), Blank, ReasonBlock(reason)];

    if Truthy(summary) {
      lines := lines + [Blank];
      lines := lines + [SummaryBlock(summary.value)];
    }
    assert lines == [Title(name), Blank, ReasonBlock(reason)] + SummaryLines(summary);
    lines := AppendReviews(lines, reviews);
    lines := AppendPhotos(lines, photos);
    lines := AppendTravelTimes(lines, candidate.roundTripHours);
  }

  /** generate_final_output: with no candidates the fixed message and nothing changes;
      with the cursor past the end an IndexError and nothing changes; otherwise the card
      of the candidate under the cursor, and the cursor moves on by one. */
  method GenerateFinalOutput(state: ChatSessionState, lookup: PlaceLookup) returns (r: Result<Output, OutputError>)
    modifies state
    ensures state.candidates == old(state.candidates) && state.parsedUserInfo == old(state.parsedUserInfo)
    ensures old(state.candidates) == [] ==> r == Success(NoCandidates) && state.currentIndex == old(state.currentIndex)
    ensures old(state.candidates) != [] && old(state.currentIndex) >= |old(state.candidates)| ==>
              r == Failure(IndexError) && state.currentIndex == old(state.currentIndex)
    ensures old(state.candidates) != [] && old(state.currentIndex) < |old(state.candidates)| ==>
              var c := old(state.candidates)[old(state.currentIndex)];
              && r == Success(Card(CardLines(c, FoundFor(c.placeInfo.placeName, lookup))))
              && state.currentIndex == old(state.currentIndex) + 1
  {
    if state.candidates == [] {
      return Success(NoCandidates);
    }
    if state.currentIndex >= |state.candidates| {
      return Failure(IndexError);
    }
    var candidate := state.candidates[state.currentIndex];

    var placeId := lookup.placeIdFor(candidate.placeInfo.placeName);
    var summary: Option<string>;
    var reviews: seq<string>;
    var photos: seq<string>;
    if !Truthy(placeId) {
      summary, reviews, photos := None, [], [];
    } else {
      var description := lookup.descriptionFor(placeId.value);
      summary := if description.Some? then description.value.summary else None;
      reviews := if description.Some? then description.value.reviews else [];
      photos := lookup.photosFor(placeId.value);
    }
    ghost var found := FoundFor(candidate.placeInfo.placeName, lookup);
    assert found == Found(summary, reviews, photos);

    var lines := FormatCard(candidate, summary, reviews, photos);
    state.currentIndex := state.currentIndex + 1;
    r := Success(Card(lines));
  }

  // ---- properties of the card ----

  /** The card opens with the name, a blank line and the reason, falling back to a fixed
      text when the candidate has none. */
  lemma CardHead(c: DestinationCandidate, found: Found)
    ensures |CardLines(c, found)| >= 3
    ensures CardLines(c, found)[0] == Title(c.placeInfo.placeName)
    ensures CardLines(c, found)[1] == Blank
    ensures CardLines(c, found)[2] == ReasonBlock(if Truthy(c.reason) then c.reason.value else NoReasonText)
  {
  }

  /** Splits a card into its opening lines and its blocks. */
  lemma CardBlocks(c: DestinationCandidate, found: Found, l: CardLine)
    ensures l in CardLines(c, found) <==>
              || l in [Title(c.placeInfo.placeName), Blank, ReasonBlock(OrElse(c.reason, NoReasonText))]
              || l in SummaryLines(found.summary)
              || l in Block(found.reviews != [], [ReviewsHeader] + ReviewItems(Take(found.reviews, MaxReviews)))
              || l in Block(found.photos != [], [PhotosHeader] + PhotoItems(found.photos))
              || l in Block(|c.roundTripHours| > 0, [TravelTimeHeader] + TravelLines(c.roundTripHours))
  {
  }

  /** When the lookup finds no place id, the card has no summary, review or photo lines. */
  lemma CardWithoutPlace(c: DestinationCandidate, lookup: PlaceLookup)
    requires !Truthy(lookup.placeIdFor(c.placeInfo.placeName))
    ensures forall l :: l in CardLines(c, FoundFor(c.placeInfo.placeName, lookup)) ==>
              !l.SummaryBlock? && !l.ReviewsHeader? && !l.ReviewItem? && !l.PhotosHeader? && !l.PhotoItem?
  {
    var found := FoundFor(c.placeInfo.placeName, lookup);
    forall l | l in CardLines(c, found)
      ensures !l.SummaryBlock? && !l.ReviewsHeader? && !l.ReviewItem? && !l.PhotosHeader? && !l.PhotoItem?
    {
      CardBlocks(c, found, l);
    }
  }

  /** What kind of line each block holds. */
  lemma BlockKinds(c: DestinationCandidate, found: Found)
    ensures forall l :: l in ReviewItems(Take(found.reviews, MaxReviews)) ==> l.ReviewItem?
    ensures forall l :: l in PhotoItems(found.photos) ==> l.PhotoItem?
    ensures forall l :: l in TravelLines(c.roundTripHours) ==> l.CarTime? || l.PublicTime?
  {
    ReviewItemsKind(Take(found.reviews, MaxReviews));
  }

  lemma {:induction false} ReviewItemsKind(reviews: seq<string>)
    ensures forall l :: l in ReviewItems(reviews) ==> l.ReviewItem?
    decreases |reviews|
  {
    if reviews != [] {
      ReviewItemsKind(reviews[..|reviews| - 1]);
    }
  }

  /** A review line or heading can only come from the review block. */
  lemma InReviewBlock(c: DestinationCandidate, found: Found, l: CardLine)
    requires l.ReviewsHeader? || l.ReviewItem?
    ensures l in CardLines(c, found) <==>
              l in Block(found.reviews != [], [ReviewsHeader] + ReviewItems(Take(found.reviews, MaxReviews)))
  {
    CardBlocks(c, found, l);
    BlockKinds(c, found);
  }

  /** A travel-time line or heading can only come from the travel-time block. */
  lemma InTravelBlock(c: DestinationCandidate, found: Found, l: CardLine)
    requires l.TravelTimeHeader? || l.CarTime? || l.PublicTime?
    ensures l in CardLines(c, found) <==>
              l in Block(|c.roundTripHours| > 0, [TravelTimeHeader] + TravelLines(c.roundTripHours))
  {
    CardBlocks(c, found, l);
    NotInReviewBlock(found.reviews, l);
    NotInPhotoBlock(found.photos, l);
  }

  lemma NotInReviewBlock(reviews: seq<string>, l: CardLine)
    requires !l.Blank? && !l.ReviewsHeader? && !l.ReviewItem?
    ensures l !in Block(reviews != [], [ReviewsHeader] + ReviewItems(Take(reviews, MaxReviews)))
  {
    ReviewItemsShort(Take(reviews, MaxReviews));
  }

  lemma NotInPhotoBlock(urls: seq<string>, l: CardLine)
    requires !l.Blank? && !l.PhotosHeader? && !l.PhotoItem?
    ensures l !in Block(urls != [], [PhotosHeader] + PhotoItems(urls))
  {
  }

  /** The review block appears exactly when there are reviews; it shows at most two, the
      first reviews in order, each stripped and at most 183 characters long. */
  lemma CardReviews(c: DestinationCandidate, found: Found)
    ensures ReviewsHeader in CardLines(c, found) <==> found.reviews != []
    ensures forall l :: l in CardLines(c, found) && l.ReviewItem? ==>
              l in ReviewItems(Take(found.reviews, MaxReviews)) && |l.review| <= MaxReviewLength + |Ellipsis|
              && exists r :: r in Take(found.reviews, MaxReviews) && l.review == ShortReview(r)
    ensures |ReviewItems(Take(found.reviews, MaxReviews))| <= MaxReviews
    ensures found.reviews != [] ==> |ReviewItems(Take(found.reviews, MaxReviews))| >= 1
  {
    InReviewBlock(c, found, ReviewsHeader);
    ReviewItemsShort(Take(found.reviews, MaxReviews));
    forall l | l in CardLines(c, found) && l.ReviewItem?
      ensures l in ReviewItems(Take(found.reviews, MaxReviews))
    {
      InReviewBlock(c, found, l);
    }
  }

  /** The travel-time block appears exactly when the map is not empty; within it the car
      line appears exactly when a car time is present, and likewise the public line. */
  lemma CardTravelTimes(c: DestinationCandidate, found: Found, hours: real)
    ensures TravelTimeHeader in CardLines(c, found) <==> |c.roundTripHours| > 0
    ensures CarTime(hours) in CardLines(c, found) <==> |c.roundTripHours| > 0 && HoursBy(c.roundTripHours, Car) == Some(hours)
    ensures PublicTime(hours) in CardLines(c, found) <==> |c.roundTripHours| > 0 && HoursBy(c.roundTripHours, Public) == Some(hours)
  {
    InTravelBlock(c, found, TravelTimeHeader);
    InTravelBlock(c, found, CarTime(hours));
    InTravelBlock(c, found, PublicTime(hours));
  }
}
