/** Defensive use of the ranking model's answer in apis/openai_scorer.py: cut to k. */
module OpenAiScorer {
  import opened Domain

  /** One entry of the model's answer. */
  datatype FinalCandidate = FinalCandidate(place: string, reason: string)

  /** recommend_top_k_candidates after the model has answered with `answer`: nothing for no
      candidates or k <= 0, else the answer's first k entries, as the model ordered them and
      without checking their names against the candidates. */
  function RecommendTopKCandidates(candidates: seq<DestinationCandidate>, answer: seq<FinalCandidate>, k: int): (r: seq<FinalCandidate>)
    ensures candidates == [] || k <= 0 ==> r == []
    ensures candidates != [] && k > 0 ==> r <= answer && |r| <= k
    ensures candidates != [] && k > 0 ==> |r| == if k < |answer| then k else |answer|
  {
    if candidates == [] || k <= 0 then [] else if k < |answer| then answer[..k] else answer
  }
}
