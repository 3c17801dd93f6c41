/**
  The options one order can be paid with, given the assignments already
  chosen for the earlier orders of the candidate: points only, one card per
  usable promotion, and the fixed points+mZysk split for orders without a
  promotions list. These are the values payWithPointsIfPossible,
  payWithCardsIfAvaible and payWithOtherMethod push onto `current`.
 */
module PaymentOptions {
  import opened Money
  import opened Domain

  /**
    The points-only option: offered exactly when the pool's FULL limit covers
    the undiscounted value (points used earlier are not looked at); it pays
    the whole discounted price from points.
   */
  function PointsOnlyOptions(order: Order, pointsMethod: PaymentMethod): (r: seq<Assignment>)
    ensures |r| <= 1
    ensures r != [] <==> pointsMethod.limit >= order.value
    ensures r != [] ==>
      && r[0].orderId == order.id && r[0].paymentMethod == POINTS_METHOD
      && r[0].cardUsed == 0.0 && r[0].pointsUsed == r[0].cost
      && r[0].cost == DiscountedCost(order.value, pointsMethod.discount)
  {
    if pointsMethod.limit >= order.value then
      var cost := DiscountedCost(order.value, pointsMethod.discount);
      [Assignment(order.id, POINTS_METHOD, cost, 0.0, cost)]
    else
      []
  }

  /** A promotion id names a known method whose full limit covers the order value. */
  predicate UsablePromotion(order: Order, pm: PaymentMap, promo: string) {
    promo in pm && pm[promo].limit >= order.value
  }

  /** Paying the whole discounted price with card `m`. */
  function CardAssignment(order: Order, m: PaymentMethod): (a: Assignment)
    ensures a.orderId == order.id && a.paymentMethod == m.id
    ensures a.pointsUsed == 0.0 && a.cardUsed == a.cost
    ensures a.cost == DiscountedCost(order.value, m.discount) && IsCents(a.cost)
  {
    var cost := DiscountedCost(order.value, m.discount);
    Assignment(order.id, m.id, 0.0, cost, cost)
  }

  /**
    The promotion-card options, one per usable promotion id, in the order of
    the promotions list.
   */
  function PromotionCardOptions(order: Order, pm: PaymentMap, promos: seq<string>): (r: seq<Assignment>)
    ensures |r| <= |promos|
  {
    if promos == [] then []
    else
      var last := promos[|promos| - 1];
      PromotionCardOptions(order, pm, promos[..|promos| - 1]) +
        (if UsablePromotion(order, pm, last) then [CardAssignment(order, pm[last])] else [])
  }

  /**
    Every promotion-card option comes from a usable promotion, and every
    usable promotion gives an option.
   */
  lemma {:induction false} PromotionCardOptionsMembership(order: Order, pm: PaymentMap, promos: seq<string>, a: Assignment)
    ensures a in PromotionCardOptions(order, pm, promos) <==>
      exists i :: 0 <= i < |promos| && UsablePromotion(order, pm, promos[i]) && a == CardAssignment(order, pm[promos[i]])
    decreases |promos|
  {
    if promos != [] {
      var init, last := promos[..|promos| - 1], promos[|promos| - 1];
      PromotionCardOptionsMembership(order, pm, init, a);
      assert forall i :: 0 <= i < |init| ==> init[i] == promos[i];
      if exists i :: 0 <= i < |promos| && UsablePromotion(order, pm, promos[i]) && a == CardAssignment(order, pm[promos[i]]) {
        var i :| 0 <= i < |promos| && UsablePromotion(order, pm, promos[i]) && a == CardAssignment(order, pm[promos[i]]);
        if i < |init| {
          assert init[i] == promos[i];
        }
      }
    }
  }

  /**
    The points+mZysk split, offered only when the order has no promotions
    list (see ComboOptionShape).
   */
  function ComboOptions(order: Order, pm: PaymentMap, usedPoints: real): (r: seq<Assignment>)
    requires HasReservedMethods(pm)
    ensures |r| <= 1
    ensures r != [] ==> order.promotions.None?
  {
    if order.promotions.Some? then []
    else
      var remainingPoints := pm[POINTS_METHOD].limit - usedPoints;
      var targetCost := order.value * (1.0 - POINTS_CARD_COMBO_DISCOUNT);
      var pointsToUse := if usedPoints == 0.0 then MIN_POINTS_USAGE else MinAmount(remainingPoints, targetCost);
      if 0.0 < pointsToUse <= remainingPoints then
        var cardToUse := targetCost - pointsToUse;
        var remainingValue := RoundHalfUp2(cardToUse / (1.0 - POINTS_CARD_COMBO_DISCOUNT));
        if cardToUse >= 0.0 && pm[MZYSK_METHOD].limit >= remainingValue then
          [Assignment(order.id, MZYSK_METHOD, pointsToUse, cardToUse, targetCost)]
        else
          []
      else
        []
  }

  /**
    The split's cost is exactly value * 0.9 (not rounded) and its two
    portions add up to it; it spends 15.00 points when the candidate has used
    none yet, otherwise as many as remain up to the target; the points fit
    the pool's remaining capacity, the card portion is not negative, and
    mZysk's FULL limit covers the card portion / 0.9 rounded half up.
   */
  lemma ComboOptionShape(order: Order, pm: PaymentMap, usedPoints: real)
    requires HasReservedMethods(pm)
    requires ComboOptions(order, pm, usedPoints) != []
    ensures var a := ComboOptions(order, pm, usedPoints)[0];
      && a.orderId == order.id && a.paymentMethod == MZYSK_METHOD
      && a.cost == order.value * (1.0 - POINTS_CARD_COMBO_DISCOUNT)
      && a.pointsUsed + a.cardUsed == a.cost
      && 0.0 < a.pointsUsed <= pm[POINTS_METHOD].limit - usedPoints
      && 0.0 <= a.cardUsed
      && RoundHalfUp2(a.cardUsed / (1.0 - POINTS_CARD_COMBO_DISCOUNT)) <= pm[MZYSK_METHOD].limit
      && (usedPoints == 0.0 ==> a.pointsUsed == MIN_POINTS_USAGE)
      && (usedPoints != 0.0 ==> a.pointsUsed == MinAmount(pm[POINTS_METHOD].limit - usedPoints, a.cost))
  {
  }

  /**
    An order without a promotions list that passes every guard of the split
    is offered it: the converse of ComboOptionShape.
   */
  lemma ComboOptionOffered(order: Order, pm: PaymentMap, usedPoints: real)
    requires HasReservedMethods(pm) && order.promotions.None?
    requires var remainingPoints := pm[POINTS_METHOD].limit - usedPoints;
      var targetCost := order.value * (1.0 - POINTS_CARD_COMBO_DISCOUNT);
      var pointsToUse := if usedPoints == 0.0 then MIN_POINTS_USAGE else MinAmount(remainingPoints, targetCost);
      && 0.0 < pointsToUse <= remainingPoints
      && targetCost - pointsToUse >= 0.0
      && pm[MZYSK_METHOD].limit >= RoundHalfUp2((targetCost - pointsToUse) / (1.0 - POINTS_CARD_COMBO_DISCOUNT))
    ensures ComboOptions(order, pm, usedPoints) != []
  {
  }

  /**
    Every option for `order` when the earlier orders of the candidate were
    assigned `current`, in the order the search tries them.
   */
  function OptionsFor(order: Order, pm: PaymentMap, current: seq<Assignment>): (r: seq<Assignment>)
    requires HasReservedMethods(pm)
    ensures pm[POINTS_METHOD].limit >= order.value ==> r != [] && r[0].paymentMethod == POINTS_METHOD && r[0].cardUsed == 0.0
    ensures order.promotions.Some? ==>
      r == PointsOnlyOptions(order, pm[POINTS_METHOD]) + PromotionCardOptions(order, pm, order.promotions.value)
    ensures order.promotions.None? ==>
      r == PointsOnlyOptions(order, pm[POINTS_METHOD]) + ComboOptions(order, pm, TotalPointsUsage(current))
  {
    PointsOnlyOptions(order, pm[POINTS_METHOD])
      + (if order.promotions.Some? then PromotionCardOptions(order, pm, order.promotions.value) else [])
      + ComboOptions(order, pm, TotalPointsUsage(current))
  }

  /**
    Each option is for this order, its two portions add up exactly to its
    cost, and, in a map keyed by id, it names a known method.
   */
  lemma OptionIsWellFormed(order: Order, pm: PaymentMap, current: seq<Assignment>, a: Assignment)
    requires HasReservedMethods(pm)
    requires a in OptionsFor(order, pm, current)
    ensures a.orderId == order.id && a.pointsUsed + a.cardUsed == a.cost
    ensures KeyedById(pm) ==> a.paymentMethod in pm
  {
    var cards := if order.promotions.Some? then PromotionCardOptions(order, pm, order.promotions.value) else [];
    var combo := ComboOptions(order, pm, TotalPointsUsage(current));
    if a in cards {
      PromotionCardOptionsMembership(order, pm, order.promotions.value, a);
    } else if a in combo {
      ComboOptionShape(order, pm, TotalPointsUsage(current));
    }
  }

  /**
    Only the points already used by the candidate matter, and for an order
    with a promotions list not even those.
   */
  lemma OptionsDependOnlyOnPointsUsed(order: Order, pm: PaymentMap, c1: seq<Assignment>, c2: seq<Assignment>)
    requires HasReservedMethods(pm)
    requires order.promotions.Some? || TotalPointsUsage(c1) == TotalPointsUsage(c2)
    ensures OptionsFor(order, pm, c1) == OptionsFor(order, pm, c2)
  {
  }
}
