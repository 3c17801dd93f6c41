/**
  Exact decimal amounts and the one rounding rule the optimizer uses:
  java.math.BigDecimal's setScale(2, RoundingMode.HALF_UP), i.e. rounding to
  the nearest cent with ties going away from zero.
 */
module Money {

  /** x is a whole number of cents (a decimal of scale at most 2). */
  predicate IsCents(x: real) {
    (x * 100.0).Floor as real == x * 100.0
  }

  /** Rounding a non-negative x half up to whole cents lands on a cent within half a cent of x. */
  lemma HalfUpWindow(x: real)
    requires x >= 0.0
    ensures var c := (x * 100.0 + 0.5).Floor as real / 100.0;
      IsCents(c) && c - 0.005 <= x < c + 0.005
  {
    var k := (x * 100.0 + 0.5).Floor;
    assert k as real <= x * 100.0 + 0.5 < k as real + 1.0;
    var c := k as real / 100.0;
    assert c * 100.0 == k as real;
    assert c * 100.0 - 0.5 <= x * 100.0 < c * 100.0 + 0.5;
  }

  /** The negation of a whole cent amount is a whole cent amount. */
  lemma IsCentsNegate(c: real)
    requires IsCents(c)
    ensures IsCents(-c)
  {
    assert (-c) * 100.0 == -(c * 100.0);
    assert (-(c * 100.0)).Floor == -((c * 100.0).Floor);
  }

  /** Rounds to 2 decimals, half away from zero (BigDecimal HALF_UP). */
  function RoundHalfUp2(x: real): (r: real)
    ensures IsCents(r)
    ensures x >= 0.0 ==> r - 0.005 <= x < r + 0.005
    ensures x < 0.0 ==> r - 0.005 < x <= r + 0.005
  {
    if x >= 0.0 then
      HalfUpWindow(x);
      (x * 100.0 + 0.5).Floor as real / 100.0
    else
      HalfUpWindow(-x);
      IsCentsNegate((-x * 100.0 + 0.5).Floor as real / 100.0);
      -((-x * 100.0 + 0.5).Floor as real / 100.0)
  }

  /** Two whole cent amounts less than a cent apart are equal. */
  lemma CentsCloserThanACentAreEqual(a: real, b: real)
    requires IsCents(a) && IsCents(b)
    requires a - 0.01 < b < a + 0.01
    ensures a == b
  {
    var ka, kb := (a * 100.0).Floor, (b * 100.0).Floor;
    assert ka as real - 1.0 < kb as real < ka as real + 1.0;
    assert ka == kb;
  }

  /**
    RoundHalfUp2 is the unique whole-cent amount in the half-up window around x:
    an independent characterisation of the rounding rule.
   */
  lemma RoundHalfUp2IsNearestCent(x: real, c: real)
    requires IsCents(c)
    requires x >= 0.0 ==> c - 0.005 <= x < c + 0.005
    requires x < 0.0 ==> c - 0.005 < x <= c + 0.005
    ensures RoundHalfUp2(x) == c
  {
    CentsCloserThanACentAreEqual(RoundHalfUp2(x), c);
  }

  /** An amount that already has 2 decimals is left unchanged. */
  lemma RoundHalfUp2OfCents(x: real)
    requires IsCents(x)
    ensures RoundHalfUp2(x) == x
  {
    RoundHalfUp2IsNearestCent(x, x);
  }

  /** HALF_UP is symmetric about zero: the sign is preserved. */
  lemma RoundHalfUp2Negate(x: real)
    ensures RoundHalfUp2(-x) == -RoundHalfUp2(x)
  {
    var r := RoundHalfUp2(x);
    IsCentsNegate(r);
    RoundHalfUp2IsNearestCent(-x, -r);
  }

  /** BigDecimal.min: the smaller amount (the first one on a tie). */
  function MinAmount(a: real, b: real): (r: real)
    ensures r <= a && r <= b
    ensures r == a || r == b
  {
    if a <= b then a else b
  }

  /** The multiplier `1 - discount / 100`, taken exactly. */
  function DiscountFactor(discount: int): real {
    (100 - discount) as real / 100.0
  }

  /**
    calculateDiscountedCost: value * (1 - discount/100), rounded half up to
    2 decimals. The result is the whole-cent amount within half a cent of the
    exact discounted price, a tie going away from zero.
   */
  function DiscountedCost(value: real, discount: int): (r: real)
    ensures IsCents(r)
    ensures value * DiscountFactor(discount) >= 0.0 ==>
      r - 0.005 <= value * DiscountFactor(discount) < r + 0.005
    ensures value * DiscountFactor(discount) < 0.0 ==>
      r - 0.005 < value * DiscountFactor(discount) <= r + 0.005
  {
    RoundHalfUp2(value * DiscountFactor(discount))
  }

  /** No discount leaves a 2-decimal value unchanged (100.00 stays 100.00). */
  lemma DiscountedCostNoDiscount(value: real)
    requires IsCents(value)
    ensures DiscountedCost(value, 0) == value
  {
    assert value * DiscountFactor(0) == value;
    RoundHalfUp2OfCents(value);
  }

  /** A 100% discount makes the order free. */
  lemma DiscountedCostFullDiscount(value: real)
    ensures DiscountedCost(value, 100) == 0.0
  {
    assert value * DiscountFactor(100) == 0.0;
    RoundHalfUp2OfCents(0.0);
  }

  /** Negative amounts scale the same way: the sign is preserved. */
  lemma DiscountedCostNegate(value: real, discount: int)
    ensures DiscountedCost(-value, discount) == -DiscountedCost(value, discount)
  {
    assert (-value) * DiscountFactor(discount) == -(value * DiscountFactor(discount));
    RoundHalfUp2Negate(value * DiscountFactor(discount));
  }

  /** The asserted cases: 100.00 at 10% is 90.00, and -100.00 at 10% is -90.00. */
  lemma DiscountedCostExamples()
    ensures DiscountedCost(100.00, 10) == 90.00
    ensures DiscountedCost(-100.00, 10) == -90.00
    ensures DiscountedCost(100.00, 0) == 100.00
  {
    assert 100.00 * DiscountFactor(10) == 90.00;
    RoundHalfUp2IsNearestCent(90.00, 90.00);
    DiscountedCostNegate(100.00, 10);
    DiscountedCostNoDiscount(100.00);
  }
}
