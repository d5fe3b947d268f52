/** Defensive use of the preference filter's answer (apis/openai_filter.py): keep the
    candidates whose names the answer lists, in candidate order, at most six per slot. */
module OpenAiFilter {
  import opened Domain
  import opened Seqs

  const Multiplier: int := 6

  /** `[c for c in candidates if c.place_name in names]`. */
  function Matched(candidates: seq<PlaceInfo>, names: seq<string>): seq<PlaceInfo>
    decreases |candidates|
  {
    if candidates == [] then []
    else (if candidates[0].placeName in names then [candidates[0]] else []) + Matched(candidates[1..], names)
  }

  /** filter_candidates_by_user_preferences after the model has answered with `names`. */
  function FilterCandidatesByUserPreferences(candidates: seq<PlaceInfo>, names: seq<string>, candidateSize: int): (r: seq<PlaceInfo>)
    ensures candidates == [] || candidateSize <= 0 ==> r == []
    ensures candidateSize > 0 ==> |r| <= candidateSize * Multiplier && r <= Matched(candidates, names)
    ensures candidates != [] && candidateSize > 0 ==>
              |r| == if |Matched(candidates, names)| < candidateSize * Multiplier then |Matched(candidates, names)|
                     else candidateSize * Multiplier
  {
    if candidates == [] || candidateSize <= 0 then []
    else Take(Matched(candidates, names), candidateSize * Multiplier)
  }

  /** A candidate is matched exactly when its name is in the answer; names in the answer
      that belong to no candidate contribute nothing. */
  lemma {:induction false} MatchedMembership(candidates: seq<PlaceInfo>, names: seq<string>, x: PlaceInfo)
    ensures x in Matched(candidates, names) <==> x in candidates && x.placeName in names
    decreases |candidates|
  {
    if candidates != [] {
      MatchedMembership(candidates[1..], names, x);
      assert x in candidates <==> x == candidates[0] || x in candidates[1..];
    }
  }

  /** The matched list keeps the candidates' order. */
  lemma {:induction false} MatchedSubsequence(candidates: seq<PlaceInfo>, names: seq<string>)
    ensures IsSubsequence(Matched(candidates, names), candidates)
    decreases |candidates|
  {
    if candidates != [] {
      MatchedSubsequence(candidates[1..], names);
      var rest := Matched(candidates[1..], names);
      if candidates[0].placeName in names {
        assert Matched(candidates, names) == [candidates[0]] + rest;
        assert ([candidates[0]] + rest)[1..] == rest;
      } else {
        assert Matched(candidates, names) == rest;
      }
    }
  }

  /** The result: empty on an empty list or a non-positive size; otherwise the first
      6 * candidateSize matched candidates, a subsequence of the input whose every member
      was named in the answer. */
  lemma FilterResult(candidates: seq<PlaceInfo>, names: seq<string>, candidateSize: int)
    ensures var r := FilterCandidatesByUserPreferences(candidates, names, candidateSize);
            && (candidates == [] || candidateSize <= 0 ==> r == [])
            && (candidates != [] && candidateSize > 0 ==>
                  r <= Matched(candidates, names) && |r| <= candidateSize * Multiplier
                  && (|Matched(candidates, names)| <= candidateSize * Multiplier ==> r == Matched(candidates, names))
                  && |r| == if |Matched(candidates, names)| < candidateSize * Multiplier then |Matched(candidates, names)|
                            else candidateSize * Multiplier)
            && IsSubsequence(r, candidates)
            && (forall x :: x in r ==> x in candidates && x.placeName in names)
  {
    var r := FilterCandidatesByUserPreferences(candidates, names, candidateSize);
    if candidates != [] && candidateSize > 0 {
      MatchedSubsequence(candidates, names);
      PrefixOfSubsequence(Matched(candidates, names), candidates, candidateSize * Multiplier);
      forall x | x in r
        ensures x in candidates && x.placeName in names
      {
        MatchedMembership(candidates, names, x);
      }
    }
  }
}
