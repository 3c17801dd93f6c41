/**
  evaluateCombination: walks a candidate against the methods' remaining
  limits, charging each assignment's points to the points pool and its card
  portion to its own method, and stops at the first assignment that does not
  fit. `Walk` is the remaining-limits map after a list of assignments;
  `Evaluate` is what the walk reports.
 */
module Feasibility {
  import opened Domain

  /** The remaining limit of each method id, as the walk updates it. */
  type Limits = map<string, real>

  /** A method's full limit; an unknown id has none (getOrDefault's zero). */
  function LimitOf(pm: PaymentMap, id: string): real {
    if id in pm then pm[id].limit else 0.0
  }

  /** The remaining limits the walk starts from: every method's full limit, under its key. */
  function SeedLimits(pm: PaymentMap): (rem: Limits)
    ensures rem.Keys == pm.Keys
    ensures forall id :: Remaining(rem, id) == LimitOf(pm, id)
  {
    map id | id in pm :: pm[id].limit
  }

  /** remainingLimits.getOrDefault(id, ZERO). */
  function Remaining(rem: Limits, id: string): real {
    if id in rem then rem[id] else 0.0
  }

  /** The assignment's points fit the pool and its card portion fits its own method. */
  predicate Fits(rem: Limits, a: Assignment) {
    a.pointsUsed <= Remaining(rem, POINTS_METHOD) && a.cardUsed <= Remaining(rem, a.paymentMethod)
  }

  /**
    One step of the walk: the pool loses the points; a method other than the
    pool loses the card portion, taken from the limit read before the pool
    was updated.
   */
  function Charge(rem: Limits, a: Assignment): Limits {
    var pointsLimit := Remaining(rem, POINTS_METHOD);
    var cardLimit := Remaining(rem, a.paymentMethod);
    var afterPoints := rem[POINTS_METHOD := pointsLimit - a.pointsUsed];
    if a.paymentMethod != POINTS_METHOD then afterPoints[a.paymentMethod := cardLimit - a.cardUsed] else afterPoints
  }

  /** Charge written out case by case, as the walk's two map updates. */
  lemma ChargeUpdates(rem: Limits, a: Assignment)
    ensures a.paymentMethod == POINTS_METHOD ==>
      Charge(rem, a) == rem[POINTS_METHOD := Remaining(rem, POINTS_METHOD) - a.pointsUsed]
    ensures a.paymentMethod != POINTS_METHOD ==>
      Charge(rem, a) == rem[POINTS_METHOD := Remaining(rem, POINTS_METHOD) - a.pointsUsed]
                           [a.paymentMethod := Remaining(rem, a.paymentMethod) - a.cardUsed]
  {
  }

  /** The remaining limits after charging every assignment of `s` in turn. */
  function Walk(rem: Limits, s: seq<Assignment>): Limits {
    if s == [] then rem else Charge(Walk(rem, s[..|s| - 1]), s[|s| - 1])
  }

  /** What `s` takes from method `id`: all the points for the pool, the card portions charged to it otherwise. */
  function Spent(s: seq<Assignment>, id: string): real {
    if id == POINTS_METHOD then TotalPointsUsage(s) else CardUsage(s, id)
  }

  /** Assignment `k` fits the limits left by the assignments before it. */
  predicate FitsAt(c: seq<Assignment>, rem: Limits, k: nat)
    requires k < |c|
  {
    Fits(Walk(rem, c[..k]), c[k])
  }

  /** Assignment `k` is the first one that does not fit. */
  predicate FirstMisfit(c: seq<Assignment>, rem: Limits, k: int) {
    0 <= k < |c| && !FitsAt(c, rem, k) && forall j :: 0 <= j < k ==> FitsAt(c, rem, j)
  }

  /** The walk, started at position `from`, accepts every assignment from there on. */
  predicate AcceptsFrom(c: seq<Assignment>, rem: Limits, from: nat)
    requires from <= |c|
    decreases |c| - from
  {
    from == |c| || (FitsAt(c, rem, from) && AcceptsFrom(c, rem, from + 1))
  }

  /** The walk accepts every assignment. */
  predicate Feasible(c: seq<Assignment>, rem: Limits) {
    forall k :: 0 <= k < |c| ==> FitsAt(c, rem, k)
  }

  /**
    How many assignments the walk adds to the total when it starts at
    position `from`: all of them, or up to and including the first that does
    not fit.
   */
  function Scanned(c: seq<Assignment>, rem: Limits, from: nat): (n: nat)
    requires from <= |c|
    ensures from <= n <= |c|
    decreases |c| - from
  {
    if from == |c| then |c|
    else if !FitsAt(c, rem, from) then from + 1
    else Scanned(c, rem, from + 1)
  }

  /** The result evaluateCombination returns. */
  function Evaluate(c: seq<Assignment>, pm: PaymentMap): EvaluationResult {
    var seed := SeedLimits(pm);
    EvaluationResult(Feasible(c, seed), TotalCost(c[..Scanned(c, seed, 0)]))
  }

  /**
    The remaining limit of every id is its starting limit less what the
    assignments so far have spent on it.
   */
  lemma {:induction false} WalkRemaining(rem: Limits, s: seq<Assignment>, id: string)
    ensures Remaining(Walk(rem, s), id) == Remaining(rem, id) - Spent(s, id)
    decreases |s|
  {
    if s != [] {
      WalkRemaining(rem, s[..|s| - 1], id);
    }
  }

  /** The walk's step-by-step check accepts exactly when every assignment from `from` on fits. */
  lemma {:induction false} AcceptsFromMeaning(c: seq<Assignment>, rem: Limits, from: nat)
    requires from <= |c|
    ensures AcceptsFrom(c, rem, from) <==> forall j :: from <= j < |c| ==> FitsAt(c, rem, j)
    decreases |c| - from
  {
    if from < |c| {
      AcceptsFromMeaning(c, rem, from + 1);
    }
  }

  /** With every assignment from `from` on fitting, the walk scans to the end. */
  lemma {:induction false} ScannedAll(c: seq<Assignment>, rem: Limits, from: nat)
    requires from <= |c| && forall j :: from <= j < |c| ==> FitsAt(c, rem, j)
    ensures Scanned(c, rem, from) == |c|
    decreases |c| - from
  {
    if from < |c| {
      assert FitsAt(c, rem, from);
      ScannedAll(c, rem, from + 1);
    }
  }

  /** The walk stops just past the first assignment from `from` on that does not fit. */
  lemma {:induction false} ScannedStops(c: seq<Assignment>, rem: Limits, from: nat, k: nat)
    requires from <= k < |c| && !FitsAt(c, rem, k)
    requires forall j :: from <= j < k ==> FitsAt(c, rem, j)
    ensures Scanned(c, rem, from) == k + 1
    decreases k - from
  {
    if from < k {
      assert FitsAt(c, rem, from);
      ScannedStops(c, rem, from + 1, k);
    }
  }

  /** A candidate with an assignment that does not fit has a first such assignment. */
  lemma {:induction false} FirstMisfitExists(c: seq<Assignment>, rem: Limits, j: nat)
    requires j < |c| && !FitsAt(c, rem, j)
    ensures exists k :: FirstMisfit(c, rem, k)
    decreases j
  {
    if forall i :: 0 <= i < j ==> FitsAt(c, rem, i) {
      assert FirstMisfit(c, rem, j);
    } else {
      var i :| 0 <= i < j && !FitsAt(c, rem, i);
      FirstMisfitExists(c, rem, i);
    }
  }

  /**
    What evaluateCombination reports: a candidate the walk accepts is valid
    and costs the sum of all its costs; otherwise it is invalid and the total
    runs up to and including the first assignment that does not fit.
   */
  lemma EvaluateMeaning(c: seq<Assignment>, pm: PaymentMap)
    ensures var r := Evaluate(c, pm);
      r.valid ==> r.totalCost == TotalCost(c)
    ensures var r := Evaluate(c, pm);
      !r.valid ==> exists k :: FirstMisfit(c, SeedLimits(pm), k) && r.totalCost == TotalCost(c[..k + 1])
  {
    var seed := SeedLimits(pm);
    if Feasible(c, seed) {
      ScannedAll(c, seed, 0);
      assert c[..|c|] == c;
    } else {
      var j :| 0 <= j < |c| && !FitsAt(c, seed, j);
      FirstMisfitExists(c, seed, j);
      var k :| FirstMisfit(c, seed, k);
      ScannedStops(c, seed, 0, k);
    }
  }

  /**
    The walk accepts a candidate exactly when every assignment's points fit
    the pool's limit less the points used before it, and its card portion
    fits its method's limit less what was spent on that method before it.
   */
  lemma FeasibleIffWithinLimits(c: seq<Assignment>, pm: PaymentMap)
    ensures Feasible(c, SeedLimits(pm)) <==>
      forall k :: 0 <= k < |c| ==>
        && c[k].pointsUsed <= LimitOf(pm, POINTS_METHOD) - TotalPointsUsage(c[..k])
        && c[k].cardUsed <= LimitOf(pm, c[k].paymentMethod) - Spent(c[..k], c[k].paymentMethod)
  {
    var seed := SeedLimits(pm);
    forall k | 0 <= k < |c|
      ensures FitsAt(c, seed, k) <==>
        && c[k].pointsUsed <= LimitOf(pm, POINTS_METHOD) - TotalPointsUsage(c[..k])
        && c[k].cardUsed <= LimitOf(pm, c[k].paymentMethod) - Spent(c[..k], c[k].paymentMethod)
    {
      WalkRemaining(seed, c[..k], POINTS_METHOD);
      WalkRemaining(seed, c[..k], c[k].paymentMethod);
    }
  }

  /** A prefix of an accepted candidate is accepted. */
  lemma FeasiblePrefix(c: seq<Assignment>, rem: Limits, n: nat)
    requires n <= |c| && Feasible(c, rem)
    ensures Feasible(c[..n], rem)
  {
    forall k | 0 <= k < n
      ensures FitsAt(c[..n], rem, k)
    {
      assert c[..n][..k] == c[..k];
      assert FitsAt(c, rem, k);
    }
  }

  /**
    An accepted candidate spends no more than a method's limit on any method
    it uses: the pool when it has at least one assignment, a card when some
    assignment is charged to it.
   */
  lemma {:induction false} FeasibleSpendsWithinLimits(c: seq<Assignment>, pm: PaymentMap, id: string)
    requires Feasible(c, SeedLimits(pm))
    requires exists k :: 0 <= k < |c| && (id == POINTS_METHOD || c[k].paymentMethod == id)
    ensures Spent(c, id) <= LimitOf(pm, id)
    decreases |c|
  {
    var seed := SeedLimits(pm);
    var init, last := c[..|c| - 1], c[|c| - 1];
    assert c[..|c| - 1] == init;
    if id == POINTS_METHOD || last.paymentMethod == id {
      assert FitsAt(c, seed, |c| - 1);
      WalkRemaining(seed, init, id);
    } else {
      var k :| 0 <= k < |c| && (id == POINTS_METHOD || c[k].paymentMethod == id);
      assert k < |init| && init[k] == c[k];
      FeasiblePrefix(c, seed, |c| - 1);
      FeasibleSpendsWithinLimits(init, pm, id);
    }
  }

  /** One accepted step of evaluateCombination's loop, stated on the specification. */
  lemma WalkStep(c: seq<Assignment>, rem: Limits, i: nat)
    requires i < |c|
    ensures Walk(rem, c[..i + 1]) == Charge(Walk(rem, c[..i]), c[i])
    ensures TotalCost(c[..i + 1]) == TotalCost(c[..i]) + c[i].cost
    ensures FitsAt(c, rem, i) ==> Scanned(c, rem, i) == Scanned(c, rem, i + 1)
    ensures FitsAt(c, rem, i) ==> AcceptsFrom(c, rem, i) == AcceptsFrom(c, rem, i + 1)
    ensures !FitsAt(c, rem, i) ==> Scanned(c, rem, i) == i + 1 && !AcceptsFrom(c, rem, i)
  {
    assert c[..i + 1][..i] == c[..i];
  }

  /** The walk stopped at a misfit `i` having scanned everything before it: the result is invalid, with the costs up to `i`. */
  lemma EvaluateAtMisfit(c: seq<Assignment>, pm: PaymentMap, i: nat)
    requires i < |c| && !FitsAt(c, SeedLimits(pm), i)
    requires AcceptsFrom(c, SeedLimits(pm), i) == AcceptsFrom(c, SeedLimits(pm), 0)
    requires Scanned(c, SeedLimits(pm), i) == Scanned(c, SeedLimits(pm), 0)
    ensures Evaluate(c, pm) == EvaluationResult(false, TotalCost(c[..i]) + c[i].cost)
  {
    var seed := SeedLimits(pm);
    WalkStep(c, seed, i);
    AcceptsFromMeaning(c, seed, 0);
  }

  /** The walk reached the end: the result is valid, with every cost. */
  lemma EvaluateAtEnd(c: seq<Assignment>, pm: PaymentMap)
    requires AcceptsFrom(c, SeedLimits(pm), |c|) == AcceptsFrom(c, SeedLimits(pm), 0)
    requires Scanned(c, SeedLimits(pm), |c|) == Scanned(c, SeedLimits(pm), 0)
    ensures Evaluate(c, pm) == EvaluationResult(true, TotalCost(c))
  {
    AcceptsFromMeaning(c, SeedLimits(pm), 0);
    assert c[..|c|] == c;
  }

  /**
    evaluateCombination: charges the assignments in order against a copy of
    the limits, adding each cost to the total before checking it, and stops
    at the first one that does not fit.
   */
  method EvaluateCombination(combination: seq<Assignment>, pm: PaymentMap) returns (result: EvaluationResult)
    ensures result == Evaluate(combination, pm)
  {
    ghost var seed := SeedLimits(pm);
    var remainingLimits := SeedLimits(pm);
    var totalCost := 0.0;
    var valid := true;
    var i := 0;
    while i < |combination|
      invariant 0 <= i <= |combination|
      invariant remainingLimits == Walk(seed, combination[..i])
      invariant AcceptsFrom(combination, seed, i) == AcceptsFrom(combination, seed, 0)
      invariant Scanned(combination, seed, i) == Scanned(combination, seed, 0)
      invariant totalCost == TotalCost(combination[..i])
      invariant valid
    {
      var assignment := combination[i];
      ghost var before := remainingLimits;
      totalCost := totalCost + assignment.cost;

      var pointsLimit := Remaining(remainingLimits, POINTS_METHOD);
      var cardLimit := Remaining(remainingLimits, assignment.paymentMethod);
      if assignment.pointsUsed > pointsLimit || assignment.cardUsed > cardLimit {
        EvaluateAtMisfit(combination, pm, i);
        valid := false;
        break;
      }

      remainingLimits := remainingLimits[POINTS_METHOD := pointsLimit - assignment.pointsUsed];
      if assignment.paymentMethod != POINTS_METHOD {
        remainingLimits := remainingLimits[assignment.paymentMethod := cardLimit - assignment.cardUsed];
      }
      ChargeUpdates(before, assignment);
      WalkStep(combination, seed, i);
      i := i + 1;
    }
    if valid {
      EvaluateAtEnd(combination, pm);
      assert combination[..i] == combination;
    }
    return EvaluationResult(valid, totalCost);
  }
}
