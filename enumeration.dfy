/**
  generateCombinations / generateCombinationsRecursive: backtracking over the
  orders, one option per order. `Combinations` is the sequence the search
  appends to `result`, in the order it appends them; the class below is the
  search itself, with the shared `current` and `result` lists as fields.
 */
module Enumeration {
  import opened Money
  import opened Domain
  import opened PaymentOptions

  /**
    What the search emits from order `index` on, after `prefix`, trying the
    options `opts` for order `index` one after the other.
   */
  function Extend(orders: seq<Order>, pm: PaymentMap, index: nat, prefix: seq<Assignment>,
                  opts: seq<Assignment>): seq<seq<Assignment>>
    requires index < |orders| && HasReservedMethods(pm)
    decreases |orders| - index, 0, |opts|
  {
    if opts == [] then []
    else Combinations(orders, pm, index + 1, prefix + [opts[0]]) + Extend(orders, pm, index, prefix, opts[1..])
  }

  /** What the search emits from order `index` on, when `prefix` is the list built so far. */
  function Combinations(orders: seq<Order>, pm: PaymentMap, index: nat, prefix: seq<Assignment>): seq<seq<Assignment>>
    requires index <= |orders| && HasReservedMethods(pm)
    decreases |orders| - index, 1, 0
  {
    if index == |orders| then [prefix]
    else Extend(orders, pm, index, prefix, OptionsFor(orders[index], pm, prefix))
  }

  /** Trying two lists of options one after the other emits the two results in turn. */
  lemma {:induction false} ExtendAppend(orders: seq<Order>, pm: PaymentMap, index: nat, prefix: seq<Assignment>,
                                        o1: seq<Assignment>, o2: seq<Assignment>)
    requires index < |orders| && HasReservedMethods(pm)
    ensures Extend(orders, pm, index, prefix, o1 + o2)
         == Extend(orders, pm, index, prefix, o1) + Extend(orders, pm, index, prefix, o2)
    decreases |o1|
  {
    if o1 == [] {
      assert o1 + o2 == o2;
    } else {
      assert (o1 + o2)[0] == o1[0] && (o1 + o2)[1..] == o1[1..] + o2;
      ExtendAppend(orders, pm, index, prefix, o1[1..], o2);
    }
  }

  lemma {:induction false} ExtendMembership(orders: seq<Order>, pm: PaymentMap, index: nat, prefix: seq<Assignment>,
                                            opts: seq<Assignment>, c: seq<Assignment>)
    requires index < |orders| && HasReservedMethods(pm)
    ensures c in Extend(orders, pm, index, prefix, opts) <==>
      exists i :: 0 <= i < |opts| && c in Combinations(orders, pm, index + 1, prefix + [opts[i]])
    decreases |opts|
  {
    if opts != [] {
      ExtendMembership(orders, pm, index, prefix, opts[1..], c);
      if c in Extend(orders, pm, index, prefix, opts) {
        if c !in Combinations(orders, pm, index + 1, prefix + [opts[0]]) {
          var i :| 0 <= i < |opts[1..]| && c in Combinations(orders, pm, index + 1, prefix + [opts[1..][i]]);
          assert opts[1..][i] == opts[i + 1];
        }
      }
      if exists i :: 0 <= i < |opts| && c in Combinations(orders, pm, index + 1, prefix + [opts[i]]) {
        var i :| 0 <= i < |opts| && c in Combinations(orders, pm, index + 1, prefix + [opts[i]]);
        if i > 0 {
          assert opts[1..][i - 1] == opts[i];
        }
      }
    }
  }

  /** Trying a single option emits exactly the completions through it. */
  lemma ExtendSingleton(orders: seq<Order>, pm: PaymentMap, index: nat, prefix: seq<Assignment>,
                         option: Assignment)
    requires index < |orders| && HasReservedMethods(pm)
    ensures Extend(orders, pm, index, prefix, [option]) == Combinations(orders, pm, index + 1, prefix + [option])
  {
    assert [option][1..] == [];
    var more := Combinations(orders, pm, index + 1, prefix + [option]);
    assert Extend(orders, pm, index, prefix, [option]) == more + [];
    assert more + [] == more;
  }

  /** If `c` starts with `p`, its first `|p| + 1` elements are `p` and the next one. */
  lemma TakeOneMore(c: seq<Assignment>, p: seq<Assignment>)
    requires |p| < |c| && c[..|p|] == p
    ensures c[..|p| + 1] == p + [c[|p|]]
  {
    forall k | 0 <= k < |p|
      ensures c[..|p| + 1][k] == p[k]
    {
      assert c[k] == c[..|p|][k];
    }
  }

  /** If the first `|p| + 1` elements of `c` are `p + [x]`, then `c` starts with `p` and has `x` next. */
  lemma TakeOfExtended(c: seq<Assignment>, p: seq<Assignment>, x: Assignment)
    requires |p| < |c| && c[..|p| + 1] == p + [x]
    ensures c[..|p|] == p && c[|p|] == x
  {
    assert c[|p|] == c[..|p| + 1][|p|];
    forall k | 0 <= k < |p|
      ensures c[k] == p[k]
    {
      assert c[k] == c[..|p| + 1][k];
    }
  }

  /** From position `index` on, every element of `c` is one of the options offered at that point. */
  predicate ChoosesOfferedOptions(orders: seq<Order>, pm: PaymentMap, c: seq<Assignment>, index: nat)
    requires |c| == |orders| && HasReservedMethods(pm)
  {
    forall j :: index <= j < |orders| ==> c[j] in OptionsFor(orders[j], pm, c[..j])
  }

  /** Every list emitted after `prefix` completes it with offered options. */
  lemma {:induction false} CombinationsSound(orders: seq<Order>, pm: PaymentMap, index: nat,
                                             prefix: seq<Assignment>, c: seq<Assignment>)
    requires index <= |orders| && |prefix| == index && HasReservedMethods(pm)
    requires c in Combinations(orders, pm, index, prefix)
    ensures |c| == |orders| && c[..index] == prefix && ChoosesOfferedOptions(orders, pm, c, index)
    decreases |orders| - index
  {
    if index < |orders| {
      var opts := OptionsFor(orders[index], pm, prefix);
      ExtendMembership(orders, pm, index, prefix, opts, c);
      var i :| 0 <= i < |opts| && c in Combinations(orders, pm, index + 1, prefix + [opts[i]]);
      CombinationsSound(orders, pm, index + 1, prefix + [opts[i]], c);
      TakeOfExtended(c, prefix, opts[i]);
      forall j | index <= j < |orders|
        ensures c[j] in OptionsFor(orders[j], pm, c[..j])
      {
        if j == index {
          assert c[j] in opts;
        } else {
          assert index + 1 <= j < |orders|;
        }
      }
    }
  }

  /** Every completion of `prefix` with offered options is emitted. */
  lemma {:induction false} CombinationsComplete(orders: seq<Order>, pm: PaymentMap, index: nat,
                                                prefix: seq<Assignment>, c: seq<Assignment>)
    requires index <= |orders| && |prefix| == index && HasReservedMethods(pm)
    requires |c| == |orders| && c[..index] == prefix && ChoosesOfferedOptions(orders, pm, c, index)
    ensures c in Combinations(orders, pm, index, prefix)
    decreases |orders| - index
  {
    if index == |orders| {
      assert c == c[..index];
    } else {
      var opts := OptionsFor(orders[index], pm, prefix);
      assert c[index] in opts;
      var i :| 0 <= i < |opts| && opts[i] == c[index];
      TakeOneMore(c, prefix);
      assert ChoosesOfferedOptions(orders, pm, c, index + 1);
      CombinationsComplete(orders, pm, index + 1, prefix + [opts[i]], c);
      ExtendMembership(orders, pm, index, prefix, opts, c);
    }
  }

  /**
    generateCombinations returns the cartesian product of the per-order
    options: exactly the lists that choose, for every order in turn, one of
    the options offered given the choices before it.
   */
  lemma CombinationsAreProduct(orders: seq<Order>, pm: PaymentMap, c: seq<Assignment>)
    requires HasReservedMethods(pm)
    ensures c in Combinations(orders, pm, 0, []) <==>
      |c| == |orders| && forall j :: 0 <= j < |orders| ==> c[j] in OptionsFor(orders[j], pm, c[..j])
  {
    if c in Combinations(orders, pm, 0, []) {
      CombinationsSound(orders, pm, 0, [], c);
    }
    if |c| == |orders| && forall j :: 0 <= j < |orders| ==> c[j] in OptionsFor(orders[j], pm, c[..j]) {
      assert c[..0] == [];
      CombinationsComplete(orders, pm, 0, [], c);
    }
  }

  /**
    Every emitted list has one assignment per order, in order, and each
    assignment's portions add up to its cost.
   */
  lemma CombinationsShape(orders: seq<Order>, pm: PaymentMap, c: seq<Assignment>)
    requires HasReservedMethods(pm)
    requires c in Combinations(orders, pm, 0, [])
    ensures |c| == |orders|
    ensures forall i :: 0 <= i < |c| ==>
      c[i].orderId == orders[i].id && c[i].pointsUsed + c[i].cardUsed == c[i].cost
  {
    CombinationsAreProduct(orders, pm, c);
    forall i | 0 <= i < |c|
      ensures c[i].orderId == orders[i].id && c[i].pointsUsed + c[i].cardUsed == c[i].cost
    {
      OptionIsWellFormed(orders[i], pm, c[..i], c[i]);
    }
  }

  /** Position `k` of an emitted list is an option offered after the positions before it. */
  lemma CombinationsChooseAt(orders: seq<Order>, pm: PaymentMap, c: seq<Assignment>, k: nat)
    requires HasReservedMethods(pm)
    requires c in Combinations(orders, pm, 0, []) && k < |orders|
    ensures |c| == |orders| && c[k] in OptionsFor(orders[k], pm, c[..k])
  {
    CombinationsSound(orders, pm, 0, [], c);
  }

  /** An order that no prefix gives any option leaves nothing to emit. */
  lemma NoOptionsNoCombinations(orders: seq<Order>, pm: PaymentMap, k: nat)
    requires HasReservedMethods(pm)
    requires k < |orders| && forall p :: OptionsFor(orders[k], pm, p) == []
    ensures Combinations(orders, pm, 0, []) == []
  {
    var all := Combinations(orders, pm, 0, []);
    if all != [] {
      CombinationsChooseAt(orders, pm, all[0], k);
      assert false;
    }
  }

  /**
    The search tries the points-only option, then the card options, then the
    split; `emitted` is whatever was emitted before.
   */
  lemma CombinationsByOptionKind(orders: seq<Order>, pm: PaymentMap, index: nat, prefix: seq<Assignment>,
                                  emitted: seq<seq<Assignment>>)
    requires index < |orders| && HasReservedMethods(pm)
    ensures var order := orders[index];
      emitted + Combinations(orders, pm, index, prefix)
      == emitted
       + Extend(orders, pm, index, prefix, PointsOnlyOptions(order, pm[POINTS_METHOD]))
       + Extend(orders, pm, index, prefix,
           if order.promotions.Some? then PromotionCardOptions(order, pm, order.promotions.value) else [])
       + Extend(orders, pm, index, prefix, ComboOptions(order, pm, TotalPointsUsage(prefix)))
  {
    var order := orders[index];
    var pointsOpts := PointsOnlyOptions(order, pm[POINTS_METHOD]);
    var cardOpts := if order.promotions.Some? then PromotionCardOptions(order, pm, order.promotions.value) else [];
    var comboOpts := ComboOptions(order, pm, TotalPointsUsage(prefix));
    var e1 := Extend(orders, pm, index, prefix, pointsOpts);
    var e2 := Extend(orders, pm, index, prefix, cardOpts);
    var e3 := Extend(orders, pm, index, prefix, comboOpts);
    assert Combinations(orders, pm, index, prefix) == Extend(orders, pm, index, prefix, pointsOpts + cardOpts + comboOpts);
    ExtendAppend(orders, pm, index, prefix, pointsOpts + cardOpts, comboOpts);
    ExtendAppend(orders, pm, index, prefix, pointsOpts, cardOpts);
    AppendAssociates(emitted, e1 + e2, e3);
    AppendAssociates(emitted, e1, e2);
  }

  /** Appending to what was emitted is associative; stated apart, where the search functions are not in scope. */
  lemma AppendAssociates(a: seq<seq<Assignment>>, b: seq<seq<Assignment>>, c: seq<seq<Assignment>>)
    ensures a + (b + c) == a + b + c
  {
  }

  /**
    One more promotion id adds the completions through its card option, if
    it is usable; `emitted` is whatever was emitted before.
   */
  lemma CardOptionsStep(orders: seq<Order>, pm: PaymentMap, index: nat, prefix: seq<Assignment>,
                         promotions: seq<string>, i: nat, emitted: seq<seq<Assignment>>)
    requires index < |orders| && HasReservedMethods(pm) && i < |promotions|
    ensures var order := orders[index];
      emitted + Extend(orders, pm, index, prefix, PromotionCardOptions(order, pm, promotions[..i + 1]))
      == emitted + Extend(orders, pm, index, prefix, PromotionCardOptions(order, pm, promotions[..i]))
       + (if UsablePromotion(order, pm, promotions[i])
          then Combinations(orders, pm, index + 1, prefix + [CardAssignment(order, pm[promotions[i]])])
          else [])
  {
    var order := orders[index];
    var before := PromotionCardOptions(order, pm, promotions[..i]);
    var e := Extend(orders, pm, index, prefix, before);
    assert promotions[..i + 1][..i] == promotions[..i] && promotions[..i + 1][i] == promotions[i];
    if UsablePromotion(order, pm, promotions[i]) {
      var option := CardAssignment(order, pm[promotions[i]]);
      assert PromotionCardOptions(order, pm, promotions[..i + 1]) == before + [option];
      ExtendAppend(orders, pm, index, prefix, before, [option]);
      ExtendSingleton(orders, pm, index, prefix, option);
      AppendAssociates(emitted, e, Combinations(orders, pm, index + 1, prefix + [option]));
    } else {
      assert PromotionCardOptions(order, pm, promotions[..i + 1]) == before + [];
      assert before + [] == before;
      assert emitted + e + [] == emitted + e;
    }
  }

  /** The shared state of the backtracking search: the list being built and the lists emitted. */
  class CombinationSearch {
    var current: seq<Assignment>
    var result: seq<seq<Assignment>>

    constructor ()
      ensures current == [] && result == []
    {
      current := [];
      result := [];
    }

    /**
      generateCombinationsRecursive: emits every completion of `current` from
      order `index` on and leaves `current` as it found it.
     */
    method GenerateCombinationsRecursive(orders: seq<Order>, pm: PaymentMap, index: nat)
      requires index <= |orders| && HasReservedMethods(pm)
      modifies this
      ensures current == old(current)
      ensures result == old(result) + Combinations(orders, pm, index, old(current))
      decreases |orders| - index, 3
    {
      if index == |orders| {
        result := result + [current];
        return;
      }
      var order := orders[index];
      var pointsMethod := pm[POINTS_METHOD];
      ghost var prefix, start := current, result;

      PayWithPointsIfPossible(orders, pm, index, pointsMethod, order);
      PayWithCardsIfAvailable(orders, pm, index, order);
      PayWithOtherMethod(orders, pm, index, order, pointsMethod);

      CombinationsByOptionKind(orders, pm, index, prefix, start);
    }

    /**
      The step the three payWith methods share: append `option` to
      `current`, search on from the next order, then remove it again.
     */
    method TryOption(orders: seq<Order>, pm: PaymentMap, index: nat, option: Assignment)
      requires index < |orders| && HasReservedMethods(pm)
      modifies this
      ensures current == old(current)
      ensures result == old(result) + Combinations(orders, pm, index + 1, old(current) + [option])
      decreases |orders| - index, 0
    {
      current := current + [option];
      GenerateCombinationsRecursive(orders, pm, index + 1);
      current := current[..|current| - 1];
      assert current == old(current);
    }

    /** payWithPointsIfPossible: tries the points-only option, if offered. */
    method PayWithPointsIfPossible(orders: seq<Order>, pm: PaymentMap, index: nat, pointsMethod: PaymentMethod, order: Order)
      requires index < |orders| && HasReservedMethods(pm)
      requires order == orders[index] && pointsMethod == pm[POINTS_METHOD]
      modifies this
      ensures current == old(current)
      ensures result == old(result) + Extend(orders, pm, index, old(current), PointsOnlyOptions(order, pointsMethod))
      decreases |orders| - index, 2
    {
      if pointsMethod.limit >= order.value {
        var cost := DiscountedCost(order.value, pointsMethod.discount);
        TryOption(orders, pm, index, Assignment(order.id, POINTS_METHOD, cost, 0.0, cost));
      }
    }

    /** payWithCardsIfAvaible: tries one card option per usable promotion, in list order. */
    method PayWithCardsIfAvailable(orders: seq<Order>, pm: PaymentMap, index: nat, order: Order)
      requires index < |orders| && HasReservedMethods(pm)
      requires order == orders[index]
      modifies this
      ensures current == old(current)
      ensures result == old(result) + Extend(orders, pm, index, old(current),
        if order.promotions.Some? then PromotionCardOptions(order, pm, order.promotions.value) else [])
      decreases |orders| - index, 2
    {
      if order.promotions.Some? {
        var promotions := order.promotions.value;
        ghost var prefix, start := current, result;
        var i := 0;
        while i < |promotions|
          invariant 0 <= i <= |promotions|
          invariant current == prefix
          invariant result == start + Extend(orders, pm, index, prefix, PromotionCardOptions(order, pm, promotions[..i]))
        {
          CardOptionsStep(orders, pm, index, prefix, promotions, i, start);
          TryPromotion(orders, pm, index, order, promotions[i]);
          i := i + 1;
        }
        assert promotions[..i] == promotions;
      } else {
        assert result + Extend(orders, pm, index, current, []) == result + [] == result;
      }
    }

    /** One pass of payWithCardsIfAvailable's loop: the promotion is tried when it is a known method whose limit covers the order. */
    method TryPromotion(orders: seq<Order>, pm: PaymentMap, index: nat, order: Order, promo: string)
      requires index < |orders| && HasReservedMethods(pm)
      requires order == orders[index]
      modifies this
      ensures current == old(current)
      ensures result == old(result)
        + (if UsablePromotion(order, pm, promo)
           then Combinations(orders, pm, index + 1, old(current) + [CardAssignment(order, pm[promo])])
           else [])
      decreases |orders| - index, 1
    {
      if promo in pm && pm[promo].limit >= order.value {
        assert UsablePromotion(order, pm, promo);
        TryOption(orders, pm, index, CardAssignment(order, pm[promo]));
      } else {
        assert !UsablePromotion(order, pm, promo);
        assert result + [] == result;
      }
    }

    /** payWithOtherMethod: tries the points+mZysk split for an order without a promotions list. */
    method PayWithOtherMethod(orders: seq<Order>, pm: PaymentMap, index: nat, order: Order, pointsMethod: PaymentMethod)
      requires index < |orders| && HasReservedMethods(pm)
      requires order == orders[index] && pointsMethod == pm[POINTS_METHOD]
      modifies this
      ensures current == old(current)
      ensures result == old(result) + Extend(orders, pm, index, old(current), ComboOptions(order, pm, TotalPointsUsage(old(current))))
      decreases |orders| - index, 2
    {
      ghost var opts := ComboOptions(order, pm, TotalPointsUsage(current));
      if order.promotions.None? {
        var usedPoints := TotalPointsUsage(current);
        var remainingPoints := pointsMethod.limit - usedPoints;
        var targetCost := order.value * (1.0 - POINTS_CARD_COMBO_DISCOUNT);
        var pointsToUse := if usedPoints == 0.0 then MIN_POINTS_USAGE else MinAmount(remainingPoints, targetCost);
        if 0.0 < pointsToUse && pointsToUse <= remainingPoints {
          var mZyskMethod := pm[MZYSK_METHOD];
          var cardToUse := targetCost - pointsToUse;
          var remainingValue := RoundHalfUp2(cardToUse / (1.0 - POINTS_CARD_COMBO_DISCOUNT));
          if cardToUse >= 0.0 && mZyskMethod.limit >= remainingValue {
            var option := Assignment(order.id, MZYSK_METHOD, pointsToUse, cardToUse, targetCost);
            assert opts == [option];
            ExtendSingleton(orders, pm, index, current, option);
            TryOption(orders, pm, index, option);
            return;
          }
        }
      }
      assert opts == [];
      assert result + Extend(orders, pm, index, current, []) == result + [] == result;
    }
  }

  /**
    generateCombinations: every candidate, in the order the backtracking
    emits them (see CombinationsAreProduct); one empty candidate for no orders.
   */
  method GenerateCombinations(orders: seq<Order>, pm: PaymentMap) returns (combinations: seq<seq<Assignment>>)
    requires HasReservedMethods(pm)
    ensures combinations == Combinations(orders, pm, 0, [])
    ensures orders == [] ==> combinations == [[]]
  {
    var search := new CombinationSearch();
    search.GenerateCombinationsRecursive(orders, pm, 0);
    combinations := search.result;
  }
}
