/** The retrieval metrics of the evaluation suite: set-based precision,
    recall and F1, positional accuracy, and mean reciprocal rank. Python's
    floats are modelled as exact reals. */
module Metrics {
  import opened Values

  /** `set(items)`. */
  function Elements(items: seq<string>): set<string>
  {
    set x | x in items
  }

  // ---------------------------------------------------------------------
  // Precision, recall and F1
  // ---------------------------------------------------------------------

  datatype Scores = Scores(precision: real, recall: real, f1: real)

  /** `2 * (p * r) / (p + r)`, or 0 when `p + r` is 0. */
  function F1(p: real, r: real): real
  {
    if p + r == 0.0 then 0.0 else 2.0 * (p * r) / (p + r)
  }

  /** `calculate_precision_recall_f1`: both lists are de-duplicated; an
      empty one gives three zeros, otherwise precision and recall are the
      shares of the retrieved and of the relevant items that are both. */
  function PrecisionRecallF1(retrieved: seq<string>, relevant: seq<string>): (r: Scores)
    ensures r.f1 == F1(r.precision, r.recall)
    ensures Elements(retrieved) == {} || Elements(relevant) == {} ==> r == Scores(0.0, 0.0, 0.0)
    ensures Elements(retrieved) != {} && Elements(relevant) != {} ==>
      var both := |Elements(retrieved) * Elements(relevant)| as real;
      && r.precision * |Elements(retrieved)| as real == both
      && r.recall * |Elements(relevant)| as real == both
  {
    var retrievedSet := Elements(retrieved);
    var relevantSet := Elements(relevant);
    if |retrievedSet| == 0 then Scores(0.0, 0.0, 0.0)
    else if |relevantSet| == 0 then Scores(0.0, 0.0, 0.0)
    else
      var truePositives := |retrievedSet * relevantSet|;
      var precision := truePositives as real / |retrievedSet| as real;
      var recall := truePositives as real / |relevantSet| as real;
      Scores(precision, recall, F1(precision, recall))
  }

  lemma ElementsEmpty(items: seq<string>)
    ensures |Elements(items)| == 0 <==> items == []
  {
    if items != [] {
      assert items[0] in Elements(items);
    }
  }

  /** An empty list on either side scores zero everywhere. */
  lemma EmptyListsScoreZero(retrieved: seq<string>, relevant: seq<string>)
    requires retrieved == [] || relevant == []
    ensures PrecisionRecallF1(retrieved, relevant) == Scores(0.0, 0.0, 0.0)
  {
    ElementsEmpty(retrieved);
    ElementsEmpty(relevant);
  }

  /** The scores depend on the two lists only through their sets of items:
      neither order nor duplicates matter. */
  lemma ScoresIgnoreOrderAndDuplicates(retrieved: seq<string>, relevant: seq<string>,
                                       retrieved': seq<string>, relevant': seq<string>)
    requires forall x :: x in retrieved <==> x in retrieved'
    requires forall x :: x in relevant <==> x in relevant'
    ensures PrecisionRecallF1(retrieved, relevant) == PrecisionRecallF1(retrieved', relevant')
  {
    assert Elements(retrieved) == Elements(retrieved');
    assert Elements(relevant) == Elements(relevant');
  }

  /** A share of a positive whole lies in [0, 1]. */
  lemma ShareInUnit(part: real, whole: real)
    requires 0.0 <= part <= whole && whole > 0.0
    ensures 0.0 <= part / whole <= 1.0
  {
    assert part / whole * whole == part;
  }

  /** With `t` items in common out of `a` retrieved and `b` relevant, F1 is
      `2t / (a + b)`: the harmonic mean of precision and recall. */
  lemma F1OfCounts(t: real, a: real, b: real)
    requires 0.0 < t <= a && t <= b
    ensures F1(t / a, t / b) == 2.0 * t / (a + b)
  {
    var p, r := t / a, t / b;
    assert p * a == t && r * b == t;
    assert p > 0.0 && r > 0.0;
    assert (p + r) * (a * b) == t * (a + b);
    assert 2.0 * (p * r) * (a * b) == 2.0 * t * t;
    assert 2.0 * (p * r) == (p + r) * (2.0 * t / (a + b));
  }

  /** The three scores for `t` common items out of `a` retrieved and `b` relevant. */
  lemma CountScoresInUnit(t: real, a: real, b: real)
    requires 0.0 <= t <= a && t <= b && a > 0.0 && b > 0.0
    ensures 0.0 <= t / a <= 1.0 && 0.0 <= t / b <= 1.0
    ensures 0.0 <= F1(t / a, t / b) <= 1.0
    ensures F1(t / a, t / b) == 0.0 <==> t == 0.0
  {
    ShareInUnit(t, a);
    ShareInUnit(t, b);
    if t == 0.0 {
      assert t / a == 0.0 && t / b == 0.0;
    } else {
      F1OfCounts(t, a, b);
      ShareInUnit(2.0 * t, a + b);
      assert 2.0 * t / (a + b) > 0.0;
    }
  }

  lemma SubsetSize(small: set<string>, large: set<string>)
    requires small <= large
    ensures |small| <= |large|
  {
    var rest := large - small;
    assert large == small + rest;
    assert small * rest == {};
  }

  /** Precision, recall and F1 all lie in [0, 1], and F1 is 0 exactly when no
      retrieved item is relevant. */
  lemma ScoresInUnitInterval(retrieved: seq<string>, relevant: seq<string>)
    ensures var s := PrecisionRecallF1(retrieved, relevant);
      0.0 <= s.precision <= 1.0 && 0.0 <= s.recall <= 1.0 && 0.0 <= s.f1 <= 1.0
      && (s.f1 == 0.0 <==> Elements(retrieved) * Elements(relevant) == {})
  {
    var retrievedSet := Elements(retrieved);
    var relevantSet := Elements(relevant);
    var both := retrievedSet * relevantSet;
    if |retrievedSet| == 0 || |relevantSet| == 0 {
      assert both == {};
    } else {
      SubsetSize(both, retrievedSet);
      SubsetSize(both, relevantSet);
      CountScoresInUnit(|both| as real, |retrievedSet| as real, |relevantSet| as real);
    }
  }

  // ---------------------------------------------------------------------
  // Accuracy
  // ---------------------------------------------------------------------

  /** `sum(1 for p, a in zip(predicted, actual) if p == a)`. */
  function Correct(predicted: seq<string>, actual: seq<string>): (n: nat)
    requires |predicted| == |actual|
    ensures n <= |predicted|
    ensures n == |predicted| <==> predicted == actual
    decreases |predicted|
  {
    if |predicted| == 0 then 0
    else
      var rest := Correct(predicted[1..], actual[1..]);
      if predicted[0] == actual[0] then
        assert predicted == actual <==> predicted[1..] == actual[1..] by {
          if predicted[1..] == actual[1..] {
            assert predicted == [predicted[0]] + predicted[1..];
            assert actual == [actual[0]] + actual[1..];
          }
        }
        1 + rest
      else rest
  }

  /** `calculate_accuracy`: 0 for lists of different lengths, the share of
      equal positions otherwise; two empty lists divide by zero. */
  function Accuracy(predicted: seq<string>, actual: seq<string>): (r: Result<real>)
    ensures |predicted| != |actual| ==> r == Ok(0.0)
    ensures r.Err? <==> predicted == [] && actual == []
    ensures r.Ok? ==> 0.0 <= r.value <= 1.0
    ensures r.Ok? && predicted != [] ==> (r.value == 1.0 <==> predicted == actual)
  {
    if |predicted| != |actual| then Ok(0.0)
    else if |predicted| == 0 then Err(ZeroDivisionError)
    else
      var n := Correct(predicted, actual);
      ShareInUnit(n as real, |predicted| as real);
      assert n as real / |predicted| as real == 1.0 ==> n == |predicted| by {
        assert n as real / |predicted| as real * |predicted| as real == n as real;
      }
      Ok(n as real / |predicted| as real)
  }

  // ---------------------------------------------------------------------
  // Mean reciprocal rank
  // ---------------------------------------------------------------------

  /** The index of the first item of `ranking` that is in `relevant`. */
  function FirstRelevant(ranking: seq<string>, relevant: seq<string>): (r: Option<nat>)
    ensures r.Some? ==> r.value < |ranking| && ranking[r.value] in relevant
                        && forall j :: 0 <= j < r.value ==> ranking[j] !in relevant
    ensures r.None? ==> forall j :: 0 <= j < |ranking| ==> ranking[j] !in relevant
    decreases |ranking|
  {
    if |ranking| == 0 then None
    else if ranking[0] in relevant then Some(0)
    else
      match FirstRelevant(ranking[1..], relevant)
      case None => None
      case Some(i) => Some(i + 1)
  }

  /** `1 / (i + 1)` for the first relevant item at index `i`, 0 when none is relevant. */
  function ReciprocalRank(ranking: seq<string>, relevant: seq<string>): (rr: real)
    ensures 0.0 <= rr <= 1.0
    ensures rr == 1.0 <==> |ranking| > 0 && ranking[0] in relevant
    ensures rr == 0.0 <==> forall j :: 0 <= j < |ranking| ==> ranking[j] !in relevant
  {
    match FirstRelevant(ranking, relevant)
    case None => 0.0
    case Some(i) =>
      ShareInUnit(1.0, (i + 1) as real);
      assert 1.0 / (i + 1) as real * (i + 1) as real == 1.0;
      1.0 / (i + 1) as real
  }

  /** The reciprocal rank of every ranking, in order. */
  function ReciprocalRanks(rankings: seq<seq<string>>, relevant: seq<string>): (rrs: seq<real>)
    ensures |rrs| == |rankings|
    ensures forall k :: 0 <= k < |rankings| ==> rrs[k] == ReciprocalRank(rankings[k], relevant)
    decreases |rankings|
  {
    if |rankings| == 0 then []
    else ReciprocalRanks(rankings[..|rankings| - 1], relevant) + [ReciprocalRank(rankings[|rankings| - 1], relevant)]
  }

  function Sum(xs: seq<real>): real
    decreases |xs|
  {
    if |xs| == 0 then 0.0 else Sum(xs[..|xs| - 1]) + xs[|xs| - 1]
  }

  /** `np.mean` of a non-empty list. */
  function Mean(xs: seq<real>): real
    requires |xs| > 0
  {
    Sum(xs) / |xs| as real
  }

  /** A sum of values in [0, 1] lies between 0 and the number of values. */
  lemma {:induction false} SumBounds(xs: seq<real>)
    requires forall k :: 0 <= k < |xs| ==> 0.0 <= xs[k] <= 1.0
    ensures 0.0 <= Sum(xs) <= |xs| as real
    decreases |xs|
  {
    if |xs| > 0 {
      SumBounds(xs[..|xs| - 1]);
    }
  }

  /** The mean reciprocal rank lies in [0, 1]. */
  lemma MeanReciprocalRankInUnit(rankings: seq<seq<string>>, relevant: seq<string>)
    requires |rankings| > 0
    ensures 0.0 <= Mean(ReciprocalRanks(rankings, relevant)) <= 1.0
  {
    var rrs := ReciprocalRanks(rankings, relevant);
    SumBounds(rrs);
    ShareInUnit(Sum(rrs), |rrs| as real);
  }

  /** The inner loop of `calculate_mean_reciprocal_rank`: scan the ranking
      and stop at the first relevant item. */
  method ReciprocalRankOf(ranking: seq<string>, relevant: seq<string>) returns (rr: real)
    ensures rr == ReciprocalRank(ranking, relevant)
  {
    rr := 0.0;
    var i := 0;
    while i < |ranking|
      invariant 0 <= i <= |ranking|
      invariant forall j :: 0 <= j < i ==> ranking[j] !in relevant
    {
      if ranking[i] in relevant {
        rr := 1.0 / (i + 1) as real;
        FirstRelevantIs(ranking, relevant, i);
        return;
      }
      i := i + 1;
    }
    FirstRelevantIsNone(ranking, relevant);
  }

  lemma FirstRelevantIs(ranking: seq<string>, relevant: seq<string>, i: nat)
    requires i < |ranking| && ranking[i] in relevant
    requires forall j :: 0 <= j < i ==> ranking[j] !in relevant
    ensures FirstRelevant(ranking, relevant) == Some(i)
  {
  }

  lemma FirstRelevantIsNone(ranking: seq<string>, relevant: seq<string>)
    requires forall j :: 0 <= j < |ranking| ==> ranking[j] !in relevant
    ensures FirstRelevant(ranking, relevant) == None
  {
  }

  /** `calculate_mean_reciprocal_rank` for a non-empty list of rankings:
      the mean of the per-ranking reciprocal ranks. */
  method MeanReciprocalRank(rankings: seq<seq<string>>, relevant: seq<string>) returns (mrr: real)
    requires |rankings| > 0
    ensures mrr == Mean(ReciprocalRanks(rankings, relevant))
  {
    var rrs: seq<real> := [];
    var k := 0;
    while k < |rankings|
      invariant 0 <= k <= |rankings|
      invariant rrs == ReciprocalRanks(rankings[..k], relevant)
    {
      assert rankings[..k + 1][..k] == rankings[..k];
      var rr := ReciprocalRankOf(rankings[k], relevant);
      rrs := rrs + [rr];
      k := k + 1;
    }
    assert rankings[..k] == rankings;
    mrr := Mean(rrs);
  }
}
