/**
  The records the optimizer works on (Order, PaymentMethod, Assignment,
  CombinationEvaluationResult), its reserved method identifiers, the lookup
  helpers and the running totals over a list of assignments.
 */
module Domain {

  datatype Option<T> = None | Some(value: T)

  /** The loyalty-points pool; it is an ordinary entry of the method map. */
  const POINTS_METHOD: string := "PUNKTY"
  /** The card used for the fixed points+card split. */
  const MZYSK_METHOD: string := "mZysk"
  /** The other card the usage summary names. */
  const BOSBANKRUT_METHOD: string := "BosBankrut"
  /** The split discount; the split target is value * (1 - 0.10). */
  const POINTS_CARD_COMBO_DISCOUNT: real := 0.10
  /** The points a split spends when the candidate has used none yet. */
  const MIN_POINTS_USAGE: real := 15.00

  /** The three reserved ids are different strings. */
  lemma ReservedIdsDistinct()
    ensures POINTS_METHOD != MZYSK_METHOD && POINTS_METHOD != BOSBANKRUT_METHOD && MZYSK_METHOD != BOSBANKRUT_METHOD
  {
    assert |POINTS_METHOD| == 6 && |MZYSK_METHOD| == 5 && |BOSBANKRUT_METHOD| == 10;
  }

  /** `promotions` is None for a JSON null, which differs from an empty list. */
  datatype Order = Order(id: string, value: real, promotions: Option<seq<string>>)

  datatype PaymentMethod = PaymentMethod(id: string, discount: int, limit: real)

  datatype Assignment = Assignment(
    orderId: string,
    paymentMethod: string,
    pointsUsed: real,
    cardUsed: real,
    cost: real)

  datatype EvaluationResult = EvaluationResult(valid: bool, totalCost: real)

  type PaymentMap = map<string, PaymentMethod>

  /** The methods that the search dereferences without a null check. */
  predicate HasReservedMethods(pm: PaymentMap) {
    POINTS_METHOD in pm && MZYSK_METHOD in pm
  }

  /** Every entry is stored under its own id, as createPaymentMethodMap builds it. */
  predicate KeyedById(pm: PaymentMap) {
    forall k :: k in pm ==> pm[k].id == k
  }

  predicate DistinctIds(methods: seq<PaymentMethod>) {
    forall i, j :: 0 <= i < j < |methods| ==> methods[i].id != methods[j].id
  }

  /**
    createPaymentMethodMap: the map from each method's id to the method.
    Collectors.toMap throws on a repeated id, so ids must be distinct.
   */
  function CreatePaymentMethodMap(methods: seq<PaymentMethod>): (pm: PaymentMap)
    requires DistinctIds(methods)
    ensures KeyedById(pm)
    ensures forall i :: 0 <= i < |methods| ==> methods[i].id in pm && pm[methods[i].id] == methods[i]
  {
    if methods == [] then map[]
    else
      var last := methods[|methods| - 1];
      CreatePaymentMethodMap(methods[..|methods| - 1])[last.id := last]
  }

  /** The map has no keys beyond the methods' ids. */
  lemma {:induction false} CreatePaymentMethodMapKeys(methods: seq<PaymentMethod>, k: string)
    requires DistinctIds(methods)
    ensures k in CreatePaymentMethodMap(methods) <==> exists i :: 0 <= i < |methods| && methods[i].id == k
    decreases |methods|
  {
    if methods != [] {
      var init := methods[..|methods| - 1];
      CreatePaymentMethodMapKeys(init, k);
      if k in CreatePaymentMethodMap(init) {
        var i :| 0 <= i < |init| && init[i].id == k;
        assert methods[i].id == k;
      }
    }
  }

  /** No order before position `i` carries `orderId`. */
  predicate IdAbsentBefore(orders: seq<Order>, i: int, orderId: string)
    requires 0 <= i <= |orders|
  {
    forall j :: 0 <= j < i ==> orders[j].id != orderId
  }

  /**
    findOrderById: the first order with the given id; None stands for the
    "Order not found" RuntimeException.
   */
  function FindOrderById(orders: seq<Order>, orderId: string): (r: Option<Order>)
    ensures r.None? <==> forall i :: 0 <= i < |orders| ==> orders[i].id != orderId
    ensures r.Some? ==>
      r.value.id == orderId &&
      exists i :: 0 <= i < |orders| && orders[i] == r.value && IdAbsentBefore(orders, i, orderId)
  {
    if orders == [] then None
    else if orders[0].id == orderId then Some(orders[0])
    else
      var r := FindOrderById(orders[1..], orderId);
      assert r.Some? ==> exists i :: 0 <= i < |orders[1..]| && orders[1..][i] == r.value && IdAbsentBefore(orders[1..], i, orderId);
      assert r.Some? ==> exists i :: 1 <= i < |orders| && orders[i] == r.value && IdAbsentBefore(orders, i, orderId);
      r
  }

  /** calculateTotalPointsUsage: the left-to-right sum of pointsUsed. */
  function TotalPointsUsage(s: seq<Assignment>): real {
    if s == [] then 0.0 else TotalPointsUsage(s[..|s| - 1]) + s[|s| - 1].pointsUsed
  }

  /** calculateTotalCost: the left-to-right sum of cost. */
  function TotalCost(s: seq<Assignment>): real {
    if s == [] then 0.0 else TotalCost(s[..|s| - 1]) + s[|s| - 1].cost
  }

  /** The points total of assignments that use no negative amount is itself not negative. */
  lemma {:induction false} TotalPointsUsageNonNegative(s: seq<Assignment>)
    requires forall i :: 0 <= i < |s| ==> s[i].pointsUsed >= 0.0
    ensures TotalPointsUsage(s) >= 0.0
    decreases |s|
  {
    if s != [] {
      TotalPointsUsageNonNegative(s[..|s| - 1]);
    }
  }

  /** The cost total of assignments with no negative cost is itself not negative. */
  lemma {:induction false} TotalCostNonNegative(s: seq<Assignment>)
    requires forall i :: 0 <= i < |s| ==> s[i].cost >= 0.0
    ensures TotalCost(s) >= 0.0
    decreases |s|
  {
    if s != [] {
      TotalCostNonNegative(s[..|s| - 1]);
    }
  }

  /** The card amounts that `s` charges to `methodId`. */
  function CardUsage(s: seq<Assignment>, methodId: string): real {
    if s == [] then 0.0
    else CardUsage(s[..|s| - 1], methodId) + (if s[|s| - 1].paymentMethod == methodId then s[|s| - 1].cardUsed else 0.0)
  }

  lemma {:induction false} TotalPointsUsageAppend(a: seq<Assignment>, b: seq<Assignment>)
    ensures TotalPointsUsage(a + b) == TotalPointsUsage(a) + TotalPointsUsage(b)
    decreases |b|
  {
    if b == [] {
      assert a + b == a;
    } else {
      assert (a + b)[..|a + b| - 1] == a + b[..|b| - 1];
      TotalPointsUsageAppend(a, b[..|b| - 1]);
    }
  }

  lemma {:induction false} TotalCostAppend(a: seq<Assignment>, b: seq<Assignment>)
    ensures TotalCost(a + b) == TotalCost(a) + TotalCost(b)
    decreases |b|
  {
    if b == [] {
      assert a + b == a;
    } else {
      assert (a + b)[..|a + b| - 1] == a + b[..|b| - 1];
      TotalCostAppend(a, b[..|b| - 1]);
    }
  }

  lemma {:induction false} CardUsageAppend(a: seq<Assignment>, b: seq<Assignment>, methodId: string)
    ensures CardUsage(a + b, methodId) == CardUsage(a, methodId) + CardUsage(b, methodId)
    decreases |b|
  {
    if b == [] {
      assert a + b == a;
    } else {
      assert (a + b)[..|a + b| - 1] == a + b[..|b| - 1];
      CardUsageAppend(a, b[..|b| - 1], methodId);
    }
  }

  /** The totals asserted for two lists: 10.00 + 20.00 points and 90.00 + 95.00 cost. */
  lemma TotalsExamples()
    ensures TotalPointsUsage([Assignment("1", MZYSK_METHOD, 10.00, 90.00, 100.00),
                              Assignment("2", POINTS_METHOD, 20.00, 0.0, 20.00)]) == 30.00
    ensures TotalCost([Assignment("1", MZYSK_METHOD, 0.0, 90.00, 90.00),
                       Assignment("2", BOSBANKRUT_METHOD, 0.0, 95.00, 95.00)]) == 185.00
  {
    var p := [Assignment("1", MZYSK_METHOD, 10.00, 90.00, 100.00), Assignment("2", POINTS_METHOD, 20.00, 0.0, 20.00)];
    assert p[..1] == [p[0]] && p[..1][..0] == [];
    assert TotalPointsUsage(p[..1]) == 10.00;
    var c := [Assignment("1", MZYSK_METHOD, 0.0, 90.00, 90.00), Assignment("2", BOSBANKRUT_METHOD, 0.0, 95.00, 95.00)];
    assert c[..1] == [c[0]] && c[..1][..0] == [];
    assert TotalCost(c[..1]) == 90.00;
  }
}
