/** Ranking metrics for one predicted item against a gold ranking (utils/metrics.py). */
module Metrics {

  /** `gold.index(x)`: the first position of x; defined only when x occurs. */
  function IndexOf(gold: seq<string>, x: string): (i: nat)
    requires x in gold
    ensures i < |gold| && gold[i] == x
    ensures forall j :: 0 <= j < i ==> gold[j] != x
  {
    if gold[0] == x then 0 else 1 + IndexOf(gold[1..], x)
  }

  /** mrr_score: the reciprocal of the 1-based rank of the prediction, 0 when absent. */
  function MrrScore(pred: string, gold: seq<string>): (s: real)
    ensures 0.0 <= s <= 1.0
    ensures pred in gold ==> s * ((IndexOf(gold, pred) + 1) as real) == 1.0
  {
    if pred !in gold then 0.0 else 1.0 / ((IndexOf(gold, pred) + 1) as real)
  }

  /** Python's `s[:k]`: a negative k drops the last |k| items. */
  function SlicePrefix(s: seq<string>, k: int): (r: seq<string>)
    ensures r <= s
    ensures k >= 0 ==> |r| == if k < |s| then k else |s|
    ensures k < 0 ==> |r| == if |s| + k > 0 then |s| + k else 0
  {
    if k >= 0 then (if k < |s| then s[..k] else s)
    else (if |s| + k > 0 then s[..|s| + k] else [])
  }

  /** hit_at_k: 1 when the prediction is among the first k gold items. */
  function HitAtK(pred: string, gold: seq<string>, k: int): (h: real)
    ensures h == 0.0 || h == 1.0
    ensures h == 1.0 ==> pred in gold
    ensures k >= |gold| ==> (h == 1.0 <==> pred in gold)
  {
    if pred in SlicePrefix(gold, k) then 1.0 else 0.0
  }

  /** The score is 0 exactly when the prediction is absent, and otherwise 1/(i+1) for its
      first position i, which lies in (0, 1]. */
  lemma MrrScoreRange(pred: string, gold: seq<string>)
    ensures MrrScore(pred, gold) == 0.0 <==> pred !in gold
    ensures pred in gold ==> 0.0 < MrrScore(pred, gold) <= 1.0
  {
    if pred in gold {
      var n := (IndexOf(gold, pred) + 1) as real;
      assert n >= 1.0;
      assert 1.0 / n <= 1.0 by { assert 1.0 <= n; }
    }
  }

  /** A perfect reciprocal rank means the prediction heads the gold ranking. */
  lemma MrrScoreOneIffFirst(pred: string, gold: seq<string>)
    ensures MrrScore(pred, gold) == 1.0 <==> (gold != [] && gold[0] == pred)
  {
    if pred in gold {
      var i := IndexOf(gold, pred);
      var n := (i + 1) as real;
      if 1.0 / n == 1.0 {
        assert n == 1.0;
      }
    }
  }

  /** A hit is membership in the prefix; k = 0 never hits, and k at least the length is
      plain membership. */
  lemma HitAtKBasics(pred: string, gold: seq<string>, k: int)
    ensures HitAtK(pred, gold, k) == 1.0 || HitAtK(pred, gold, k) == 0.0
    ensures HitAtK(pred, gold, 0) == 0.0
    ensures k >= |gold| ==> (HitAtK(pred, gold, k) == 1.0 <==> pred in gold)
  {
  }

  /** Growing k never loses a hit. */
  lemma HitAtKMonotone(pred: string, gold: seq<string>, k1: int, k2: int)
    requires 0 <= k1 <= k2
    ensures HitAtK(pred, gold, k1) <= HitAtK(pred, gold, k2)
  {
    var p1 := SlicePrefix(gold, k1);
    var p2 := SlicePrefix(gold, k2);
    assert p1 <= p2;
    if pred in p1 {
      var i :| 0 <= i < |p1| && p1[i] == pred;
      assert p2[i] == pred;
    }
  }

  /** A negative k follows slicing: the last |k| gold items never count. */
  lemma HitAtKNegative(pred: string, gold: seq<string>, k: int)
    requires k < 0 && |gold| + k > 0
    ensures HitAtK(pred, gold, k) == 1.0 <==> pred in gold[..|gold| + k]
  {
  }

  /** For k >= 1 and a prediction in the gold list, Hit@k is 1 exactly when the
      reciprocal rank is at least 1/k. */
  lemma {:induction false} HitAtKIffMrrAtLeast(pred: string, gold: seq<string>, k: int)
    requires k >= 1 && pred in gold
    ensures HitAtK(pred, gold, k) == 1.0 <==> MrrScore(pred, gold) >= 1.0 / (k as real)
  {
    var i := IndexOf(gold, pred);
    var n := (i + 1) as real;
    var kr := k as real;
    assert n > 0.0 && kr > 0.0;
    assert pred in SlicePrefix(gold, k) <==> i < k by {
      var p := SlicePrefix(gold, k);
      if i < k {
        assert p[i] == pred;
      }
      if pred in p {
        var j :| 0 <= j < |p| && p[j] == pred;
        assert gold[j] == pred;
        assert j >= i;
      }
    }
    if n <= kr {
      ReciprocalAntitone(n, kr);
    } else {
      ReciprocalStrict(kr, n);
    }
  }

  lemma ReciprocalAntitone(a: real, b: real)
    requires 0.0 < a <= b
    ensures 1.0 / a >= 1.0 / b
  {
    assert 1.0 / a - 1.0 / b == (b - a) / (a * b);
  }

  lemma ReciprocalStrict(a: real, b: real)
    requires 0.0 < a < b
    ensures 1.0 / a > 1.0 / b
  {
    assert 1.0 / a - 1.0 / b == (b - a) / (a * b);
  }
}
