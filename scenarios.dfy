/**
  The cases the repository's unit tests assert, restated on the model with
  the tests' fixture: PUNKTY (no discount, limit 50.00), mZysk (10%, limit
  1000.00) and BosBankrut (5%, limit 500.00).
 */
module Scenarios {
  import opened Money
  import opened Domain
  import opened PaymentOptions
  import opened Enumeration
  import opened Feasibility
  import opened Comparator
  import opened Selection
  import opened Bookkeeping

  const POINTS: PaymentMethod := PaymentMethod(POINTS_METHOD, 0, 50.00)
  const MZYSK: PaymentMethod := PaymentMethod(MZYSK_METHOD, 10, 1000.00)
  const BOSBANKRUT: PaymentMethod := PaymentMethod(BOSBANKRUT_METHOD, 5, 500.00)

  const FIXTURE_METHODS: seq<PaymentMethod> := [POINTS, MZYSK, BOSBANKRUT]

  /** The fixture's method map, keyed by id. */
  function FixtureMap(): (pm: PaymentMap)
    ensures HasReservedMethods(pm) && BOSBANKRUT_METHOD in pm && KeyedById(pm)
    ensures pm[POINTS_METHOD] == POINTS && pm[MZYSK_METHOD] == MZYSK && pm[BOSBANKRUT_METHOD] == BOSBANKRUT
  {
    ReservedIdsDistinct();
    map[POINTS_METHOD := POINTS, MZYSK_METHOD := MZYSK, BOSBANKRUT_METHOD := BOSBANKRUT]
  }

  /** The fixture's order: 100.00 with promotions mZysk and BosBankrut. */
  const ORDER_1: Order := Order("1", 100.00, Some([MZYSK_METHOD, BOSBANKRUT_METHOD]))

  /** createPaymentMethodMap on the fixture's methods has the three ids, mZysk at 10%. */
  lemma CreateFixtureMap()
    ensures var pm := CreatePaymentMethodMap(FIXTURE_METHODS);
      POINTS_METHOD in pm && MZYSK_METHOD in pm && BOSBANKRUT_METHOD in pm && pm[MZYSK_METHOD].discount == 10
    ensures CreatePaymentMethodMap([]) == map[]
  {
    ReservedIdsDistinct();
    assert FIXTURE_METHODS[0].id == POINTS_METHOD && FIXTURE_METHODS[1] == MZYSK
      && FIXTURE_METHODS[2].id == BOSBANKRUT_METHOD;
    assert DistinctIds(FIXTURE_METHODS);
    var pm := CreatePaymentMethodMap(FIXTURE_METHODS);
    assert FIXTURE_METHODS[0].id in pm && FIXTURE_METHODS[1].id in pm && FIXTURE_METHODS[2].id in pm;
  }

  /** findOrderById finds order "1" and reports order "2" as missing. */
  lemma FindOrderExamples()
    ensures FindOrderById([ORDER_1], "1") == Some(ORDER_1)
    ensures FindOrderById([ORDER_1], "2") == None
  {
  }

  lemma DiscountedCostFivePercent()
    ensures DiscountedCost(100.00, 5) == 95.00
  {
    assert 100.00 * DiscountFactor(5) == 95.00;
    RoundHalfUp2IsNearestCent(95.00, 95.00);
  }

  /** The fixture's order is offered mZysk at 90.00 and BosBankrut at 95.00, nothing else. */
  lemma Order1Options(current: seq<Assignment>)
    ensures OptionsFor(ORDER_1, FixtureMap(), current)
      == [CardAssignment(ORDER_1, MZYSK), CardAssignment(ORDER_1, BOSBANKRUT)]
    ensures CardAssignment(ORDER_1, MZYSK) == Assignment("1", MZYSK_METHOD, 0.0, 90.00, 90.00)
    ensures CardAssignment(ORDER_1, BOSBANKRUT) == Assignment("1", BOSBANKRUT_METHOD, 0.0, 95.00, 95.00)
  {
    var pm := FixtureMap();
    var promos := [MZYSK_METHOD, BOSBANKRUT_METHOD];
    assert promos[..1] == [MZYSK_METHOD] && promos[..1][..0] == [];
    assert PromotionCardOptions(ORDER_1, pm, promos[..1]) == [CardAssignment(ORDER_1, MZYSK)];
    DiscountedCostExamples();
    DiscountedCostFivePercent();
  }

  /** The fixture's order alone yields two one-assignment candidates, mZysk first. */
  lemma Order1Combinations()
    ensures Combinations([ORDER_1], FixtureMap(), 0, [])
      == [[Assignment("1", MZYSK_METHOD, 0.0, 90.00, 90.00)], [Assignment("1", BOSBANKRUT_METHOD, 0.0, 95.00, 95.00)]]
  {
    var pm := FixtureMap();
    var a := Assignment("1", MZYSK_METHOD, 0.0, 90.00, 90.00);
    var b := Assignment("1", BOSBANKRUT_METHOD, 0.0, 95.00, 95.00);
    Order1Options([]);
    var opts := OptionsFor(ORDER_1, pm, []);
    assert opts == [a, b] && opts[1..] == [b] && opts[1..][1..] == [];
    assert [] + [a] == [a] && [] + [b] == [b];
    assert Combinations([ORDER_1], pm, 1, [] + [a]) == [[a]];
    assert Combinations([ORDER_1], pm, 1, [] + [b]) == [[b]];
    assert Extend([ORDER_1], pm, 0, [], [b]) == [[b]];
  }

  /**
    The asserted evaluations: an mZysk payment of 90.00 is valid at 90.00,
    and 100.00 points against the 50.00 pool are rejected.
   */
  lemma EvaluateExamples()
    ensures Evaluate([Assignment("1", MZYSK_METHOD, 0.0, 90.00, 90.00)], FixtureMap()) == EvaluationResult(true, 90.00)
    ensures !Evaluate([Assignment("1", POINTS_METHOD, 100.00, 0.0, 100.00)], FixtureMap()).valid
  {
    var seed := SeedLimits(FixtureMap());
    var ok := [Assignment("1", MZYSK_METHOD, 0.0, 90.00, 90.00)];
    var bad := [Assignment("1", POINTS_METHOD, 100.00, 0.0, 100.00)];
    assert ok[..0] == [] && ok[..1] == ok && bad[..0] == [];
    assert Remaining(seed, POINTS_METHOD) == 50.00 && Remaining(seed, MZYSK_METHOD) == 1000.00;
    assert Walk(seed, ok[..0]) == seed && Walk(seed, bad[..0]) == seed;
    assert FitsAt(ok, seed, 0);
    assert Scanned(ok, seed, 1) == 1 && Scanned(ok, seed, 0) == 1;
    assert Feasible(ok, seed);
    assert TotalCost(ok) == 90.00;
    assert !FitsAt(bad, seed, 0);
  }

  /** mZysk at 90.00 beats BosBankrut at 95.00, and beats 60.00 points over the 50.00 pool. */
  lemma CompareExamples()
    ensures CompareCombinations([Assignment("1", MZYSK_METHOD, 0.0, 90.00, 90.00)],
                                [Assignment("1", BOSBANKRUT_METHOD, 0.0, 95.00, 95.00)], FixtureMap()) < 0
    ensures CompareCombinations([Assignment("1", MZYSK_METHOD, 0.0, 90.00, 90.00)],
                                [Assignment("1", POINTS_METHOD, 60.00, 0.0, 60.00)], FixtureMap()) < 0
  {
    var c1 := [Assignment("1", MZYSK_METHOD, 0.0, 90.00, 90.00)];
    var c3 := [Assignment("1", POINTS_METHOD, 60.00, 0.0, 60.00)];
    var c2 := [Assignment("1", BOSBANKRUT_METHOD, 0.0, 95.00, 95.00)];
    assert c1[..0] == [] && c2[..0] == [] && c3[..0] == [];
    assert TotalPointsUsage(c1) == 0.0 && TotalPointsUsage(c2) == 0.0 && TotalPointsUsage(c3) == 60.00;
    assert TotalCost(c1) == 90.00 && TotalCost(c2) == 95.00;
    assert FixtureMap()[POINTS_METHOD].limit == 50.00;
  }

  /** For the fixture's order the optimizer picks mZysk at 90.00, no more than the order's 100.00. */
  lemma Order1Selection()
    ensures SelectBest(Combinations([ORDER_1], FixtureMap(), 0, []), FixtureMap())
      == [Assignment("1", MZYSK_METHOD, 0.0, 90.00, 90.00)]
  {
    var pm := FixtureMap();
    var c1 := [Assignment("1", MZYSK_METHOD, 0.0, 90.00, 90.00)];
    var c2 := [Assignment("1", BOSBANKRUT_METHOD, 0.0, 95.00, 95.00)];
    Order1Combinations();
    EvaluateExamples();
    var cs := [c1, c2];
    assert cs[..1] == [c1] && cs[..1][..0] == [];
    assert SelectBest(cs[..1], pm) == c1;
    CompareExamples();
    CompareCombinationsAntisymmetric(c1, c2, pm);
  }

  /** A 1100.00 order without a promotions list has no option at all, so nothing is selected. */
  lemma LargeOrderHasNoOption()
    ensures var order := Order("2", 1100.00, None);
      OptionsFor(order, FixtureMap(), []) == []
      && Combinations([order], FixtureMap(), 0, []) == []
      && SelectBest(Combinations([order], FixtureMap(), 0, []), FixtureMap()) == []
  {
    var order := Order("2", 1100.00, None);
    var card := order.value * (1.0 - POINTS_CARD_COMBO_DISCOUNT) - MIN_POINTS_USAGE;
    assert card == 975.00;
    assert RoundHalfUp2(card / (1.0 - POINTS_CARD_COMBO_DISCOUNT)) > 1000.00;
    assert ComboOptions(order, FixtureMap(), 0.0) == [];
  }

  /** A 20.00 order without a promotions list is offered 15.00 points plus 3.00 on mZysk. */
  lemma SmallOrderGetsSplit()
    ensures var order := Order("2", 20.00, None);
      [Assignment("2", MZYSK_METHOD, 15.00, 3.00, 18.00)] in Combinations([order], FixtureMap(), 0, [])
  {
    var order := Order("2", 20.00, None);
    var pm := FixtureMap();
    var split := Assignment("2", MZYSK_METHOD, 15.00, 3.00, 18.00);
    assert RoundHalfUp2(3.00 / (1.0 - POINTS_CARD_COMBO_DISCOUNT)) < 1000.00;
    assert ComboOptions(order, pm, 0.0) == [split];
    assert split in OptionsFor(order, pm, []);
    var c := [split];
    assert c[..0] == [];
    CombinationsAreProduct([order], pm, c);
  }

  /**
    updateUsageMap with 10.00 points and 90.00 on mZysk: the pool reads
    10.00, mZysk 90.00 and BosBankrut 0.00.
   */
  method UpdateUsageExample() returns (points: real, mZysk: real, bosBankrut: real)
    ensures points == 10.00 && mZysk == 90.00 && bosBankrut == 0.00
  {
    var usageMap := InitializeUsageMap(FIXTURE_METHODS);
    assert FIXTURE_METHODS[0].id == POINTS_METHOD && FIXTURE_METHODS[1].id == MZYSK_METHOD
      && FIXTURE_METHODS[2].id == BOSBANKRUT_METHOD;
    UpdateUsageMap(usageMap, Assignment("1", MZYSK_METHOD, 10.00, 90.00, 100.00));
    RoundHalfUp2OfCents(10.00);
    RoundHalfUp2OfCents(90.00);
    RoundHalfUp2OfCents(0.0);
    points := usageMap[POINTS_METHOD].GetAmount();
    mZysk := usageMap[MZYSK_METHOD].GetAmount();
    bosBankrut := usageMap[BOSBANKRUT_METHOD].GetAmount();
  }

  /** With 100.00 on mZysk and 20.00 in points, the summary shows those two and omits BosBankrut. */
  method UsageSummaryExample() returns (lines: seq<UsageLine>)
    ensures lines == [UsageLine(MZYSK_METHOD, 100.00), UsageLine(POINTS_METHOD, 20.00)]
  {
    var usageMap := InitializeUsageMap(FIXTURE_METHODS);
    ReservedIdsDistinct();
    assert FIXTURE_METHODS[0].id == POINTS_METHOD && FIXTURE_METHODS[1].id == MZYSK_METHOD
      && FIXTURE_METHODS[2].id == BOSBANKRUT_METHOD;
    assert POINTS_METHOD in usageMap && MZYSK_METHOD in usageMap && BOSBANKRUT_METHOD in usageMap;
    usageMap[MZYSK_METHOD].Add(100.00);
    usageMap[POINTS_METHOD].Add(20.00);
    RoundHalfUp2OfCents(100.00);
    RoundHalfUp2OfCents(20.00);
    RoundHalfUp2OfCents(0.0);
    assert usageMap[MZYSK_METHOD].GetAmount() == 100.00;
    assert usageMap[POINTS_METHOD].GetAmount() == 20.00;
    assert usageMap[BOSBANKRUT_METHOD].GetAmount() == 0.0;
    assert SUMMARY_ORDER[0] == MZYSK_METHOD && SUMMARY_ORDER[1..][0] == BOSBANKRUT_METHOD
      && SUMMARY_ORDER[1..][1..] == [POINTS_METHOD] && [POINTS_METHOD][1..] == [];
    assert SummaryLines([], usageMap) == [];
    assert SummaryLines([POINTS_METHOD], usageMap) == [UsageLine(POINTS_METHOD, 20.00)];
    assert SummaryLines(SUMMARY_ORDER[1..], usageMap) == [UsageLine(POINTS_METHOD, 20.00)];
    lines := UsageSummary(usageMap);
  }
}
