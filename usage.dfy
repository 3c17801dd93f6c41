/**
  The bookkeeping after selection: one Usage accumulator per payment method,
  updated in place by updateUsageMap, and the choice of lines the usage
  summary shows.
 */
module Bookkeeping {
  import opened Money
  import opened Domain

  /** A running total of what one method has been charged. */
  class Usage {
    var amount: real

    /** A fresh accumulator starts at zero. */
    constructor ()
      ensures amount == 0.0
    {
      amount := 0.0;
    }

    /** add: the total grows by `value`. */
    method Add(value: real)
      modifies this
      ensures amount == old(amount) + value
    {
      amount := amount + value;
    }

    /** getAmount: the running total rounded half up to 2 decimals. */
    function GetAmount(): (r: real)
      reads this
      ensures IsCents(r)
      ensures amount >= 0.0 ==> r - 0.005 <= amount < r + 0.005
      ensures amount < 0.0 ==> r - 0.005 < amount <= r + 0.005
    {
      RoundHalfUp2(amount)
    }
  }

  /** Different ids have different accumulators. */
  predicate Unaliased(usageMap: map<string, Usage>) {
    forall k1, k2 :: k1 in usageMap && k2 in usageMap && k1 != k2 ==> usageMap[k1] != usageMap[k2]
  }

  /** A fresh accumulator reads 0.00. */
  lemma FreshUsageReadsZero(u: Usage)
    requires u.amount == 0.0
    ensures u.GetAmount() == 0.0
  {
    RoundHalfUp2OfCents(0.0);
  }

  /**
    initializeUsageMap: one new, zeroed accumulator per method id (a repeated
    id keeps the last one put).
   */
  method InitializeUsageMap(methods: seq<PaymentMethod>) returns (usageMap: map<string, Usage>)
    ensures usageMap.Keys == set i | 0 <= i < |methods| :: methods[i].id
    ensures forall k :: k in usageMap ==> fresh(usageMap[k]) && usageMap[k].amount == 0.0
    ensures Unaliased(usageMap)
  {
    usageMap := map[];
    var i := 0;
    while i < |methods|
      invariant 0 <= i <= |methods|
      invariant usageMap.Keys == set j | 0 <= j < i :: methods[j].id
      invariant forall k :: k in usageMap ==> fresh(usageMap[k]) && usageMap[k].amount == 0.0
      invariant Unaliased(usageMap)
    {
      var u := new Usage();
      usageMap := usageMap[methods[i].id := u];
      i := i + 1;
    }
  }

  /**
    What updateUsageMap adds to the accumulator of `id`: the points to the
    pool when positive, the card portion to the assignment's method when
    positive.
   */
  function UsageIncrement(a: Assignment, id: string): real {
    (if id == POINTS_METHOD && a.pointsUsed > 0.0 then a.pointsUsed else 0.0)
      + (if id == a.paymentMethod && a.cardUsed > 0.0 then a.cardUsed else 0.0)
  }

  /** Only the pool and the assignment's own method can change, and only by non-negative amounts. */
  lemma UsageIncrementMeaning(a: Assignment, id: string)
    ensures UsageIncrement(a, id) >= 0.0
    ensures id != POINTS_METHOD && id != a.paymentMethod ==> UsageIncrement(a, id) == 0.0
    ensures id == POINTS_METHOD && id != a.paymentMethod ==> UsageIncrement(a, id) == (if a.pointsUsed > 0.0 then a.pointsUsed else 0.0)
    ensures id != POINTS_METHOD && id == a.paymentMethod ==> UsageIncrement(a, id) == (if a.cardUsed > 0.0 then a.cardUsed else 0.0)
  {
  }

  /**
    Booking an assignment whose portions are not negative and add up to its
    cost adds exactly that cost across the accumulators: the points to the
    pool and the card portion to its method (both to the pool when the
    method is the pool itself).
   */
  lemma UsageIncrementConserves(a: Assignment)
    requires a.pointsUsed >= 0.0 && a.cardUsed >= 0.0 && a.pointsUsed + a.cardUsed == a.cost
    ensures a.paymentMethod != POINTS_METHOD ==>
      UsageIncrement(a, POINTS_METHOD) + UsageIncrement(a, a.paymentMethod) == a.cost
    ensures a.paymentMethod == POINTS_METHOD ==> UsageIncrement(a, POINTS_METHOD) == a.cost
  {
  }

  /**
    updateUsageMap. The accumulator it adds to must exist (it is read without
    a null check).
   */
  method UpdateUsageMap(usageMap: map<string, Usage>, a: Assignment)
    requires a.pointsUsed > 0.0 ==> POINTS_METHOD in usageMap
    requires a.cardUsed > 0.0 ==> a.paymentMethod in usageMap
    requires Unaliased(usageMap)
    modifies usageMap.Values
    ensures forall k :: k in usageMap ==> usageMap[k].amount == old(usageMap[k].amount) + UsageIncrement(a, k)
  {
    if a.pointsUsed > 0.0 {
      usageMap[POINTS_METHOD].Add(a.pointsUsed);
    }
    if a.cardUsed > 0.0 {
      usageMap[a.paymentMethod].Add(a.cardUsed);
    }
  }

  /** The methods the usage summary reports, in its order. */
  const SUMMARY_ORDER: seq<string> := [MZYSK_METHOD, BOSBANKRUT_METHOD, POINTS_METHOD]

  /** A summary line: a method id and its rounded usage. */
  datatype UsageLine = UsageLine(methodId: string, amount: real)

  /** The summary lines for the ids in `names`, skipping absent ids and rounded amounts that are not positive. */
  function SummaryLines(names: seq<string>, usageMap: map<string, Usage>): (lines: seq<UsageLine>)
    reads usageMap.Values
    ensures |lines| <= |names|
    ensures forall l :: l in lines ==> l.amount > 0.0 && l.methodId in names && l.methodId in usageMap
  {
    if names == [] then []
    else
      var rest := SummaryLines(names[1..], usageMap);
      var name := names[0];
      if name in usageMap && usageMap[name].GetAmount() > 0.0
      then [UsageLine(name, usageMap[name].GetAmount())] + rest
      else rest
  }

  /**
    printUsageSummary's choice of lines: mZysk, BosBankrut, then PUNKTY, each
    shown with its rounded amount exactly when it has an accumulator whose
    rounded amount is positive.
   */
  function UsageSummary(usageMap: map<string, Usage>): seq<UsageLine>
    reads usageMap.Values
  {
    SummaryLines(SUMMARY_ORDER, usageMap)
  }

  /** A listed id gets a line exactly when it has an accumulator showing a positive amount. */
  lemma {:induction false} SummaryLinesMembership(names: seq<string>, usageMap: map<string, Usage>, name: string, amount: real)
    ensures UsageLine(name, amount) in SummaryLines(names, usageMap) <==>
      name in names && name in usageMap && amount == usageMap[name].GetAmount() && amount > 0.0
    decreases |names|
  {
    if names != [] {
      SummaryLinesMembership(names[1..], usageMap, name, amount);
      assert names == [names[0]] + names[1..];
    }
  }
}
