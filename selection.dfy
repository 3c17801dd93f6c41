/**
  findOptimalAssignments: scans the candidates in generation order and keeps
  a valid one whenever nothing is kept yet or it compares strictly below the
  one kept. `SelectBest` is that fold.
 */
module Selection {
  import opened Domain
  import opened PaymentOptions
  import opened Enumeration
  import opened Feasibility
  import opened Comparator

  /** Candidate `c` replaces the kept list `best`. */
  predicate Replaces(c: seq<Assignment>, best: seq<Assignment>, pm: PaymentMap)
    requires POINTS_METHOD in pm
  {
    Evaluate(c, pm).valid && (best == [] || CompareCombinations(c, best, pm) < 0)
  }

  /** The list kept after scanning `cs` from the start. */
  function SelectBest(cs: seq<seq<Assignment>>, pm: PaymentMap): seq<Assignment>
    requires POINTS_METHOD in pm
  {
    if cs == [] then []
    else
      var best := SelectBest(cs[..|cs| - 1], pm);
      if Replaces(cs[|cs| - 1], best, pm) then cs[|cs| - 1] else best
  }

  /** Candidate `c` is accepted by evaluateCombination. */
  predicate IsValid(c: seq<Assignment>, pm: PaymentMap) {
    Evaluate(c, pm).valid
  }

  /** No candidate is an empty list (true of every candidate when there is at least one order). */
  predicate AllNonEmpty(cs: seq<seq<Assignment>>) {
    forall i :: 0 <= i < |cs| ==> cs[i] != []
  }

  /** Candidate `k` ranks strictly before every valid candidate generated before it. */
  predicate BeatsEarlierValid(cs: seq<seq<Assignment>>, pm: PaymentMap, k: nat)
    requires POINTS_METHOD in pm && k < |cs|
  {
    forall j :: 0 <= j < k && IsValid(cs[j], pm) ==> CompareCombinations(cs[k], cs[j], pm) < 0
  }

  /** The kept list is empty or one of the candidates, a valid one. */
  lemma {:induction false} SelectBestIsValidCandidate(cs: seq<seq<Assignment>>, pm: PaymentMap)
    requires POINTS_METHOD in pm
    ensures var best := SelectBest(cs, pm);
      best == [] || (best in cs && IsValid(best, pm))
    decreases |cs|
  {
    if cs != [] {
      var init := cs[..|cs| - 1];
      SelectBestIsValidCandidate(init, pm);
      if SelectBest(init, pm) in init {
        var i :| 0 <= i < |init| && init[i] == SelectBest(init, pm);
        assert cs[i] == init[i];
      }
    }
  }

  /** With no empty candidate, nothing is kept exactly when no candidate is valid. */
  lemma {:induction false} SelectBestEmptyIffNoneValid(cs: seq<seq<Assignment>>, pm: PaymentMap)
    requires POINTS_METHOD in pm && AllNonEmpty(cs)
    ensures SelectBest(cs, pm) == [] <==> forall i :: 0 <= i < |cs| ==> !IsValid(cs[i], pm)
    decreases |cs|
  {
    if cs != [] {
      var init := cs[..|cs| - 1];
      assert forall i :: 0 <= i < |init| ==> init[i] == cs[i];
      SelectBestEmptyIffNoneValid(init, pm);
      SelectBestIsValidCandidate(cs, pm);
    }
  }

  /** No valid candidate compares strictly below the kept one. */
  lemma {:induction false} SelectBestIsMinimal(cs: seq<seq<Assignment>>, pm: PaymentMap, c: seq<Assignment>)
    requires POINTS_METHOD in pm && AllNonEmpty(cs)
    requires c in cs && IsValid(c, pm)
    ensures SelectBest(cs, pm) != [] && CompareCombinations(c, SelectBest(cs, pm), pm) >= 0
    decreases |cs|
  {
    var init, last := cs[..|cs| - 1], cs[|cs| - 1];
    assert cs == init + [last];
    assert AllNonEmpty(init) by {
      forall i | 0 <= i < |init| ensures init[i] != [] { assert init[i] == cs[i]; }
    }
    var best := SelectBest(init, pm);
    CompareCombinationsAntisymmetric(c, c, pm);
    if c in init {
      SelectBestIsMinimal(init, pm, c);
      if Replaces(last, best, pm) {
        CompareCombinationsTransitive(c, last, best, pm);
      }
    } else {
      assert c == last;
    }
  }

  /**
    The kept list is the first valid candidate in generation order that no
    valid candidate compares strictly below: it ranks strictly before every
    valid candidate generated earlier.
   */
  lemma {:induction false} SelectBestIsFirstMinimal(cs: seq<seq<Assignment>>, pm: PaymentMap)
    requires POINTS_METHOD in pm && AllNonEmpty(cs)
    requires SelectBest(cs, pm) != []
    ensures exists k :: 0 <= k < |cs| && cs[k] == SelectBest(cs, pm) && BeatsEarlierValid(cs, pm, k)
    decreases |cs|
  {
    var init, last := cs[..|cs| - 1], cs[|cs| - 1];
    assert AllNonEmpty(init) by {
      forall i | 0 <= i < |init| ensures init[i] != [] { assert init[i] == cs[i]; }
    }
    var best := SelectBest(init, pm);
    if Replaces(last, best, pm) {
      var k := |cs| - 1;
      forall j | 0 <= j < k && IsValid(cs[j], pm)
        ensures CompareCombinations(cs[k], cs[j], pm) < 0
      {
        assert cs[j] == init[j];
        SelectBestIsMinimal(init, pm, cs[j]);
        CompareCombinationsTransitive(last, best, cs[j], pm);
      }
    } else {
      SelectBestIsFirstMinimal(init, pm);
      var k :| 0 <= k < |init| && init[k] == best && BeatsEarlierValid(init, pm, k);
      assert forall j :: 0 <= j < k ==> cs[j] == init[j];
      assert cs[k] == best;
    }
  }

  /** Every candidate for a non-empty list of orders is non-empty. */
  lemma CandidatesNonEmpty(orders: seq<Order>, pm: PaymentMap)
    requires HasReservedMethods(pm) && orders != []
    ensures AllNonEmpty(Combinations(orders, pm, 0, []))
  {
    var cs := Combinations(orders, pm, 0, []);
    forall i | 0 <= i < |cs|
      ensures cs[i] != []
    {
      CombinationsShape(orders, pm, cs[i]);
    }
  }

  /**
    What findOptimalAssignments returns for at least one order: nothing
    exactly when no candidate passes evaluateCombination; otherwise a valid
    candidate that no valid candidate compares strictly below.
   */
  lemma OptimalAssignmentsMeaning(orders: seq<Order>, pm: PaymentMap)
    requires HasReservedMethods(pm) && orders != []
    ensures var cs := Combinations(orders, pm, 0, []);
      var best := SelectBest(cs, pm);
      && (best == [] <==> forall i :: 0 <= i < |cs| ==> !IsValid(cs[i], pm))
      && (best != [] ==> best in cs && IsValid(best, pm))
      && (best != [] ==> forall c :: c in cs && IsValid(c, pm) ==> CompareCombinations(c, best, pm) >= 0)
  {
    var cs := Combinations(orders, pm, 0, []);
    CandidatesNonEmpty(orders, pm);
    SelectBestEmptyIffNoneValid(cs, pm);
    SelectBestIsValidCandidate(cs, pm);
    forall c | c in cs && IsValid(c, pm)
      ensures CompareCombinations(c, SelectBest(cs, pm), pm) >= 0
    {
      SelectBestIsMinimal(cs, pm, c);
    }
  }

  /**
    findOptimalAssignments: generates every candidate, evaluates each one and
    keeps the best as it goes.
   */
  method FindOptimalAssignments(orders: seq<Order>, pm: PaymentMap) returns (bestAssignments: seq<Assignment>)
    requires HasReservedMethods(pm)
    ensures bestAssignments == SelectBest(Combinations(orders, pm, 0, []), pm)
  {
    bestAssignments := [];
    var allCombinations := GenerateCombinations(orders, pm);
    var i := 0;
    while i < |allCombinations|
      invariant 0 <= i <= |allCombinations|
      invariant bestAssignments == SelectBest(allCombinations[..i], pm)
    {
      var combination := allCombinations[i];
      assert allCombinations[..i + 1][..i] == allCombinations[..i];
      var result := EvaluateCombination(combination, pm);
      if result.valid && (bestAssignments == [] || CompareCombinations(combination, bestAssignments, pm) < 0) {
        bestAssignments := combination;
      }
      i := i + 1;
    }
    assert allCombinations[..i] == allCombinations;
  }
}
