/**
  compareCombinations: candidates whose points stay within the pool's full
  limit come first, then the lower total cost. `Better` is the lexicographic
  order the comparator is meant to implement, stated on its own.
 */
module Comparator {
  import opened Domain

  /** BigDecimal.compareTo on two amounts: -1, 0 or 1. */
  function CompareAmounts(x: real, y: real): (r: int)
    ensures r == -1 || r == 0 || r == 1
    ensures r < 0 <==> x < y
    ensures r == 0 <==> x == y
    ensures r > 0 <==> x > y
  {
    if x < y then -1 else if x > y then 1 else 0
  }

  /** The candidate's summed points do not exceed the pool's full limit. */
  predicate WithinPointsLimit(c: seq<Assignment>, pm: PaymentMap)
    requires POINTS_METHOD in pm
  {
    TotalPointsUsage(c) <= pm[POINTS_METHOD].limit
  }

  /**
    The intended ranking: within the points limit beats over it; between two
    candidates on the same side of the limit, the cheaper one wins.
   */
  predicate Better(a: seq<Assignment>, b: seq<Assignment>, pm: PaymentMap)
    requires POINTS_METHOD in pm
  {
    var ka, kb := WithinPointsLimit(a, pm), WithinPointsLimit(b, pm);
    (ka && !kb) || (ka == kb && TotalCost(a) < TotalCost(b))
  }

  /** compareCombinations. The pool must be in the map (it is read without a null check). */
  function CompareCombinations(a: seq<Assignment>, b: seq<Assignment>, pm: PaymentMap): (r: int)
    requires POINTS_METHOD in pm
    ensures r == -1 || r == 0 || r == 1
  {
    var aPointsUsage := TotalPointsUsage(a);
    var bPointsUsage := TotalPointsUsage(b);
    var pointsLimit := pm[POINTS_METHOD].limit;
    var aValid := aPointsUsage <= pointsLimit;
    var bValid := bPointsUsage <= pointsLimit;
    if aValid && !bValid then -1
    else if !aValid && bValid then 1
    else CompareAmounts(TotalCost(a), TotalCost(b))
  }

  /**
    The comparator implements the ranking: negative exactly when `a` ranks
    before `b`, positive exactly when `b` ranks before `a`, and zero exactly
    when both sit on the same side of the limit at the same total cost.
   */
  lemma CompareCombinationsMeaning(a: seq<Assignment>, b: seq<Assignment>, pm: PaymentMap)
    requires POINTS_METHOD in pm
    ensures CompareCombinations(a, b, pm) < 0 <==> Better(a, b, pm)
    ensures CompareCombinations(a, b, pm) > 0 <==> Better(b, a, pm)
    ensures CompareCombinations(a, b, pm) == 0 <==>
      WithinPointsLimit(a, pm) == WithinPointsLimit(b, pm) && TotalCost(a) == TotalCost(b)
  {
  }

  /** Swapping the arguments flips the sign; a candidate ties with itself. */
  lemma CompareCombinationsAntisymmetric(a: seq<Assignment>, b: seq<Assignment>, pm: PaymentMap)
    requires POINTS_METHOD in pm
    ensures CompareCombinations(a, b, pm) == -CompareCombinations(b, a, pm)
    ensures CompareCombinations(a, a, pm) == 0
  {
  }

  /** Staying within the points limit wins whatever the costs. */
  lemma WithinPointsLimitComesFirst(a: seq<Assignment>, b: seq<Assignment>, pm: PaymentMap)
    requires POINTS_METHOD in pm
    requires WithinPointsLimit(a, pm) && !WithinPointsLimit(b, pm)
    ensures CompareCombinations(a, b, pm) < 0
  {
  }

  /** Ranking strictly before is transitive, also through a tie. */
  lemma CompareCombinationsTransitive(a: seq<Assignment>, b: seq<Assignment>, c: seq<Assignment>,
                                         pm: PaymentMap)
    requires POINTS_METHOD in pm
    ensures CompareCombinations(a, b, pm) < 0 && CompareCombinations(b, c, pm) <= 0 ==> CompareCombinations(a, c, pm) < 0
    ensures CompareCombinations(a, b, pm) <= 0 && CompareCombinations(b, c, pm) < 0 ==> CompareCombinations(a, c, pm) < 0
    ensures CompareCombinations(a, b, pm) <= 0 && CompareCombinations(b, c, pm) <= 0 ==> CompareCombinations(a, c, pm) <= 0
  {
    CompareCombinationsMeaning(a, b, pm);
    CompareCombinationsMeaning(b, c, pm);
    CompareCombinationsMeaning(a, c, pm);
  }
}
