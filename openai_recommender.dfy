/** Defensive use of the recommendation model's answer (apis/openai_recommender.py):
    the answer's names are looked up among the candidates, unknown names are dropped,
    the reason is written onto each matched candidate, and the first k are returned. */
module OpenAiRecommender {
  import opened Domain
  import opened Seqs

  /** One entry of the model's answer. */
  datatype LlmRecommendation = LlmRecommendation(placeName: string, reason: string)

  /** `{c.place_info.place_name: c for c in candidates}`: a later candidate with the same
      name replaces an earlier one. */
  function NameIndex(cs: seq<DestinationCandidate>): map<string, DestinationCandidate>
    decreases |cs|
  {
    if cs == [] then map[]
    else NameIndex(cs[..|cs| - 1])[cs[|cs| - 1].placeInfo.placeName := cs[|cs| - 1]]
  }

  /** The answer's entries mapped to candidates, in the answer's order; unknown names skipped. */
  function Ordered(index: map<string, DestinationCandidate>, recs: seq<LlmRecommendation>): seq<DestinationCandidate>
    decreases |recs|
  {
    if recs == [] then []
    else
      var rec := recs[|recs| - 1];
      Ordered(index, recs[..|recs| - 1]) + (if rec.placeName in index then [index[rec.placeName]] else [])
  }

  /** The reason `c` holds after the answer's entries `recs` were applied to it in turn,
      starting from `initial`. */
  function ReasonAfter(index: map<string, DestinationCandidate>, recs: seq<LlmRecommendation>,
                       c: DestinationCandidate, initial: Option<string>): Option<string>
    decreases |recs|
  {
    if recs == [] then initial
    else
      var rec := recs[|recs| - 1];
      if rec.placeName in index && index[rec.placeName] == c then Some(rec.reason)
      else ReasonAfter(index, recs[..|recs| - 1], c, initial)
  }

  /** Every index entry is a candidate carrying that name. */
  lemma {:induction false} NameIndexEntries(cs: seq<DestinationCandidate>)
    ensures forall n :: n in NameIndex(cs) ==> NameIndex(cs)[n] in cs && NameIndex(cs)[n].placeInfo.placeName == n
    decreases |cs|
  {
    if cs != [] {
      NameIndexEntries(cs[..|cs| - 1]);
    }
  }

  /** A name is indexed exactly when some candidate carries it, and it maps to the LAST
      candidate with that name. */
  lemma {:induction false} NameIndexLastWins(cs: seq<DestinationCandidate>, n: string)
    ensures n in NameIndex(cs) <==> exists c :: c in cs && c.placeInfo.placeName == n
    ensures forall i :: 0 <= i < |cs| && cs[i].placeInfo.placeName == n
                        && (forall j :: i < j < |cs| ==> cs[j].placeInfo.placeName != n)
                        ==> n in NameIndex(cs) && NameIndex(cs)[n] == cs[i]
    decreases |cs|
  {
    if cs != [] {
      var init := cs[..|cs| - 1];
      NameIndexLastWins(init, n);
      assert forall c :: c in cs <==> c in init || c == cs[|cs| - 1];
      forall i | 0 <= i < |cs| && cs[i].placeInfo.placeName == n
                 && (forall j :: i < j < |cs| ==> cs[j].placeInfo.placeName != n)
        ensures n in NameIndex(cs) && NameIndex(cs)[n] == cs[i]
      {
        if i < |cs| - 1 {
          assert cs[|cs| - 1].placeInfo.placeName != n;
          assert init[i] == cs[i];
          assert forall j :: i < j < |init| ==> init[j] == cs[j];
        }
      }
    }
  }

  /** Mapping the answer commutes with concatenating answers. */
  lemma {:induction false} OrderedAppend(index: map<string, DestinationCandidate>, a: seq<LlmRecommendation>, b: seq<LlmRecommendation>)
    ensures Ordered(index, a + b) == Ordered(index, a) + Ordered(index, b)
    decreases |b|
  {
    if b == [] {
      assert a + b == a;
    } else {
      var bi := b[..|b| - 1];
      assert (a + b)[..|a + b| - 1] == a + bi;
      assert (a + b)[|a + b| - 1] == b[|b| - 1];
      OrderedAppend(index, a, bi);
    }
  }

  /** The ordered list holds exactly the candidates some answer entry names, and is no
      longer than the answer; an answer naming no candidate yields nothing. */
  lemma {:induction false} OrderedMembers(index: map<string, DestinationCandidate>, recs: seq<LlmRecommendation>)
    ensures |Ordered(index, recs)| <= |recs|
    ensures forall c :: c in Ordered(index, recs) <==>
              exists r :: r in recs && r.placeName in index && index[r.placeName] == c
    ensures (forall r :: r in recs ==> r.placeName !in index) ==> Ordered(index, recs) == []
    decreases |recs|
  {
    if recs != [] {
      var init := recs[..|recs| - 1];
      OrderedMembers(index, init);
      assert forall r :: r in recs <==> r in init || r == recs[|recs| - 1];
    }
  }

  /** A candidate's reason is left alone unless an answer entry names it; otherwise it is
      the reason of the last entry that does. */
  lemma {:induction false} ReasonAfterLastEntry(index: map<string, DestinationCandidate>, recs: seq<LlmRecommendation>,
                                                c: DestinationCandidate, initial: Option<string>)
    ensures (forall r :: r in recs ==> !(r.placeName in index && index[r.placeName] == c)) ==>
              ReasonAfter(index, recs, c, initial) == initial
    ensures forall i :: 0 <= i < |recs| && recs[i].placeName in index && index[recs[i].placeName] == c
                        && (forall j :: i < j < |recs| ==> !(recs[j].placeName in index && index[recs[j].placeName] == c))
                        ==> ReasonAfter(index, recs, c, initial) == Some(recs[i].reason)
    decreases |recs|
  {
    if recs != [] {
      var init := recs[..|recs| - 1];
      ReasonAfterLastEntry(index, init, c, initial);
      assert forall r :: r in init ==> r in recs;
      forall i | 0 <= i < |recs| && recs[i].placeName in index && index[recs[i].placeName] == c
                 && (forall j :: i < j < |recs| ==> !(recs[j].placeName in index && index[recs[j].placeName] == c))
        ensures ReasonAfter(index, recs, c, initial) == Some(recs[i].reason)
      {
        if i < |recs| - 1 {
          assert init[i] == recs[i];
          assert forall j :: i < j < |init| ==> init[j] == recs[j];
        }
      }
    }
  }

  /** A candidate in the ordered list carries the reason of an answer entry with its name. */
  lemma OrderedHasReason(cs: seq<DestinationCandidate>, recs: seq<LlmRecommendation>, c: DestinationCandidate, initial: Option<string>)
    requires c in Ordered(NameIndex(cs), recs)
    ensures exists rec :: rec in recs && rec.placeName == c.placeInfo.placeName
                          && ReasonAfter(NameIndex(cs), recs, c, initial) == Some(rec.reason)
  {
    var index := NameIndex(cs);
    NameIndexEntries(cs);
    OrderedMembers(index, recs);
    ReasonAfterLastEntry(index, recs, c, initial);
    var i := LastNaming(index, recs, c);
    assert recs[i] in recs;
  }

  /** The position of the last answer entry that names `c`. */
  lemma LastNaming(index: map<string, DestinationCandidate>, recs: seq<LlmRecommendation>, c: DestinationCandidate)
    returns (i: nat)
    requires exists r :: r in recs && r.placeName in index && index[r.placeName] == c
    ensures i < |recs| && recs[i].placeName in index && index[recs[i].placeName] == c
    ensures forall j :: i < j < |recs| ==> !(recs[j].placeName in index && index[recs[j].placeName] == c)
    decreases |recs|
  {
    var last := recs[|recs| - 1];
    if last.placeName in index && index[last.placeName] == c {
      i := |recs| - 1;
    } else {
      var init := recs[..|recs| - 1];
      var r :| r in recs && r.placeName in index && index[r.placeName] == c;
      assert r in init;
      i := LastNaming(index, init, c);
    }
  }

  lemma TakeMembers<T>(s: seq<T>, n: nat)
    ensures forall x :: x in Take(s, n) ==> x in s
  {
  }

  /** recommend_top_k_candidates after the model has answered with `recs`: nothing (and no
      reason written) for no candidates or k <= 0; otherwise the first k candidates the
      answer names, in the answer's order, and every named candidate - also those past k -
      carries the reason of the last entry naming it. */
  method RecommendTopKCandidates(candidates: seq<DestinationCandidate>, recs: seq<LlmRecommendation>, k: int)
    returns (top: seq<DestinationCandidate>)
    modifies set c | c in candidates
    ensures candidates == [] || k <= 0 ==> top == [] && forall c :: c in candidates ==> c.reason == old(c.reason)
    ensures candidates != [] && k > 0 ==> top == Take(Ordered(NameIndex(candidates), recs), k)
    ensures candidates != [] && k > 0 ==>
              forall c :: c in candidates ==> c.reason == ReasonAfter(NameIndex(candidates), recs, c, old(c.reason))
  {
    if candidates == [] || k <= 0 {
      return [];
    }
    var nameToCandidate: map<string, DestinationCandidate> := map[];
    for i := 0 to |candidates|
      invariant nameToCandidate == NameIndex(candidates[..i])
    {
      assert candidates[..i + 1][..i] == candidates[..i];
      nameToCandidate := nameToCandidate[candidates[i].placeInfo.placeName := candidates[i]];
    }
    assert candidates[..|candidates|] == candidates;
    NameIndexEntries(candidates);
    var ordered: seq<DestinationCandidate> := [];
    for j := 0 to |recs|
      invariant ordered == Ordered(nameToCandidate, recs[..j])
      invariant forall c :: c in candidates ==> c.reason == ReasonAfter(nameToCandidate, recs[..j], c, old(c.reason))
    {
      assert recs[..j + 1][..j] == recs[..j];
      var rec := recs[j];
      if rec.placeName !in nameToCandidate {
        continue;
      }
      var cand := nameToCandidate[rec.placeName];
      cand.reason := Some(rec.reason);
      ordered := ordered + [cand];
    }
    assert recs[..|recs|] == recs;
    top := Take(ordered, k);
  }
}
