# PaymentOptimizer, modelled in Dafny

PaymentOptimizer assigns a way of paying to every order of a shop. Each order
can be paid in one of three ways:

- entirely from the loyalty-points pool `PUNKTY`;
- with one of the promotion cards listed on the order, at that card's discount;
- for an order without a promotions list, by a points + `mZysk` split at a
  flat 10% discount.

The optimizer works in three steps:

1. It enumerates every candidate, one option per order, by backtracking over
   a shared list.
2. It replays each candidate against per-method limits that shrink as they
   are used.
3. Among the valid candidates it keeps the best one: a candidate that stays
   within the points limit ranks first, then the lower total cost wins.

After selection it books what each method was charged in one `Usage`
accumulator per method.

The model follows `src/main/java/PaymentOptimizer.java` one module per
concern:

| file | module | what it holds |
|---|---|---|
| `money.dfy` | `Money` | exact amounts, BigDecimal `setScale(2, HALF_UP)`, `calculateDiscountedCost` |
| `domain.dfy` | `Domain` | the constants and records, the method map, `findOrderById`, the two totals |
| `options.dfy` | `PaymentOptions` | the options each `payWith*` method tries, as pure functions |
| `enumeration.dfy` | `Enumeration` | the backtracking search as a class whose fields are the shared `current` and `result` lists, proved equal to the specification `Combinations` |
| `feasibility.dfy` | `Feasibility` | the limits walk of `evaluateCombination` (a loop with `break`) and its specification |
| `comparator.dfy` | `Comparator` | `compareCombinations` and the lexicographic order it implements |
| `selection.dfy` | `Selection` | the fold of `findOptimalAssignments` and what it selects |
| `usage.dfy` | `Bookkeeping` | the mutable `Usage` class, `initializeUsageMap`, `updateUsageMap`, which lines the usage summary shows |
| `scenarios.dfy` | `Scenarios` | the cases the unit tests assert, restated on the model with the same fixture |

Modelling choices:

- Money is Dafny `real`, so amounts are exact. `BigDecimal` is exact as well,
  and the combo target `value × 0.9` is never rounded.
- The promotions list is an `Option`: a missing (null) list and an empty one
  behave differently.
- A Java exception that signals bad input becomes either a precondition or an
  `Option` result:
  - `findOrderById` returns `None` where the Java throws "Order not found".
  - The null dereferences on a missing `PUNKTY` or `mZysk` become the
    precondition `HasReservedMethods`.
  - The duplicate-key failure of `Collectors.toMap` becomes the precondition
    `DistinctIds`.

## Model

| member | source | states |
|---|---|---|
| Money.RoundHalfUp2 | src/main/java/PaymentOptimizer.java:47-49 | rounding to 2 decimals gives a whole number of cents within half a cent of the input; ties go away from zero (HALF_UP) |
| Money.RoundHalfUp2IsNearestCent | src/main/java/PaymentOptimizer.java:306-309 | the rounded value is the unique whole-cent amount in the half-up window around the input |
| Money.RoundHalfUp2OfCents | src/main/java/PaymentOptimizer.java:47-49 | an amount that already has 2 decimals is unchanged by setScale(2, HALF_UP) |
| Money.RoundHalfUp2Negate | src/main/java/PaymentOptimizer.java:306-309 | HALF_UP is symmetric: rounding −x gives minus the rounding of x |
| Money.DiscountedCost | src/main/java/PaymentOptimizer.java:306-309 | calculateDiscountedCost is the whole-cent amount in the half-up window around value × (100 − d)/100, a tie going away from zero as HALF_UP does |
| Money.DiscountedCostNoDiscount | src/test/java/PaymentOptimizerTest.java:191-197 | a 0% discount leaves a 2-decimal value unchanged |
| Money.DiscountedCostFullDiscount | src/main/java/PaymentOptimizer.java:306-309 | a 100% discount costs 0 |
| Money.DiscountedCostNegate | src/test/java/PaymentOptimizerTest.java:199-205 | a negative value gives the negated discounted cost, so the sign is preserved |
| Money.DiscountedCostExamples | src/test/java/PaymentOptimizerTest.java:183-205 | 100.00 at 10% is 90.00; −100.00 at 10% is −90.00; 100.00 at 0% is 100.00 |
| Money.MinAmount | src/main/java/PaymentOptimizer.java:264 | BigDecimal.min returns one of its arguments, and that argument is no larger than the other |
| Domain.ReservedIdsDistinct | src/main/java/PaymentOptimizer.java:15-17 | the reserved ids PUNKTY, mZysk and BosBankrut are three different strings |
| Domain.CreatePaymentMethodMap | src/main/java/PaymentOptimizer.java:98-100 | the map stores every method under its own id, and every listed method can be looked up by its id |
| Domain.CreatePaymentMethodMapKeys | src/main/java/PaymentOptimizer.java:98-100 | an id is a key exactly when some listed method has it |
| Domain.FindOrderById | src/main/java/PaymentOptimizer.java:124-129 | None exactly when no order has the id; otherwise the first order that has it |
| Domain.TotalPointsUsageNonNegative | src/main/java/PaymentOptimizer.java:221-225 | calculateTotalPointsUsage of assignments that use no negative points is not negative |
| Domain.TotalPointsUsageAppend | src/main/java/PaymentOptimizer.java:221-225 | the points total of a concatenation is the sum of the two totals |
| Domain.TotalCostNonNegative | src/main/java/PaymentOptimizer.java:227-231 | calculateTotalCost of assignments with no negative cost is not negative |
| Domain.TotalCostAppend | src/main/java/PaymentOptimizer.java:227-231 | the cost total of a concatenation is the sum of the two totals |
| Domain.CardUsageAppend | src/main/java/PaymentOptimizer.java:193-196 | what a concatenation charges to one card is the sum of what each part charges to it |
| Domain.TotalsExamples | src/test/java/PaymentOptimizerTest.java:272-290 | 10.00 + 20.00 points total 30.00; costs 90.00 + 95.00 total 185.00 |
| PaymentOptions.PointsOnlyOptions | src/main/java/PaymentOptimizer.java:297-304 | the points-only option is offered exactly when the pool's full limit covers the order value, is charged entirely to PUNKTY, and costs the discounted value |
| PaymentOptions.CardAssignment | src/main/java/PaymentOptimizer.java:287-289 | a card option is for this order and that method, uses no points, costs the order value discounted by that method's discount, and charges that whole-cent cost to the card |
| PaymentOptions.PromotionCardOptions | src/main/java/PaymentOptimizer.java:283-295 | there are at most as many card options as promotion ids |
| PaymentOptions.PromotionCardOptionsMembership | src/main/java/PaymentOptimizer.java:283-295 | an option is a card option exactly when some promotion id names a known method whose full limit covers the order value |
| PaymentOptions.ComboOptions | src/main/java/PaymentOptimizer.java:256-281 | at most one split is offered, and only to an order whose promotions list is null |
| PaymentOptions.ComboOptionOffered | src/main/java/PaymentOptimizer.java:256-281 | an order with a null promotions list is offered the split whenever the points to use are positive and fit the remaining pool, the target covers them, and mZysk's full limit covers the card portion ÷ 0.9 rounded half up |
| PaymentOptions.ComboOptionShape | src/main/java/PaymentOptimizer.java:256-281 | the split costs exactly value × 0.9 unrounded, and its points and card portions sum to that. Points are 15.00 when no points were used yet, otherwise min(remaining, target), and always fit the remaining pool. The card portion is non-negative, and mZysk's full limit covers the card portion ÷ 0.9 rounded half up |
| PaymentOptions.OptionIsWellFormed | src/main/java/PaymentOptimizer.java:256-304 | every option is for its order, its two portions sum exactly to its cost, and it names a method in the map |
| PaymentOptions.OptionsFor | src/main/java/PaymentOptimizer.java:245-253 | the options are tried points first, then the card options for an order with a promotions list or the split for one without; the points-only option comes first whenever the pool's full limit covers the value |
| PaymentOptions.OptionsDependOnlyOnPointsUsed | src/main/java/PaymentOptimizer.java:256-264 | the options depend on the earlier choices only through the points they used, and not at all for an order with a promotions list |
| Enumeration.ExtendMembership | src/main/java/PaymentOptimizer.java:239-254 | a list is emitted for an option list exactly when some option's completions contain it |
| Enumeration.CombinationsSound | src/main/java/PaymentOptimizer.java:239-254 | every emitted list extends the prefix with one offered option per remaining order |
| Enumeration.CombinationsComplete | src/main/java/PaymentOptimizer.java:239-254 | every extension of the prefix that picks an offered option for each remaining order is emitted |
| Enumeration.CombinationsAreProduct | src/main/java/PaymentOptimizer.java:233-254 | a list is generated exactly when it has one entry per order, and each entry is an option offered given the entries before it |
| Enumeration.CombinationsShape | src/main/java/PaymentOptimizer.java:233-254 | every candidate has length orders.size(); its i-th assignment is for order i, and its portions sum to its cost |
| Enumeration.CombinationsChooseAt | src/main/java/PaymentOptimizer.java:246-253 | position k of a candidate is an option offered for order k |
| Enumeration.NoOptionsNoCombinations | src/main/java/PaymentOptimizer.java:239-254 | an order that never has an option leaves the whole result empty |
| Enumeration.CombinationSearch.constructor | src/main/java/PaymentOptimizer.java:234-235 | the search starts with an empty current list and an empty result |
| Enumeration.CombinationSearch.GenerateCombinationsRecursive | src/main/java/PaymentOptimizer.java:239-254 | appends exactly the completions of current from order index on, in search order, and restores current |
| Enumeration.CombinationSearch.PayWithPointsIfPossible | src/main/java/PaymentOptimizer.java:297-304 | appends the completions through the points-only option, if offered, and restores current |
| Enumeration.CombinationSearch.PayWithCardsIfAvailable | src/main/java/PaymentOptimizer.java:283-295 | appends the completions through each usable promotion card, in list order, and restores current |
| Enumeration.CombinationSearch.TryPromotion | src/main/java/PaymentOptimizer.java:286-292 | one promotion id: when it names a known method whose limit covers the order, appends the completions through that card's option; otherwise changes nothing |
| Enumeration.CombinationSearch.PayWithOtherMethod | src/main/java/PaymentOptimizer.java:256-281 | appends the completions through the points+mZysk split, if offered, and restores current |
| Enumeration.CombinationSearch.TryOption | src/main/java/PaymentOptimizer.java:300-302 | add, recurse, remove-last: appends the completions of current + [option] and leaves current as it was |
| Enumeration.GenerateCombinations | src/main/java/PaymentOptimizer.java:233-237 | returns exactly the specification's candidates, and one empty candidate when there are no orders |
| Feasibility.SeedLimits | src/main/java/PaymentOptimizer.java:175-176 | the remaining limits start as each method's full limit, under its id; an id missing from the map reads 0 |
| Feasibility.WalkRemaining | src/main/java/PaymentOptimizer.java:184-196 | after the walk, each id's remaining limit is its starting limit minus what the walked assignments spent on it |
| Feasibility.AcceptsFromMeaning | src/main/java/PaymentOptimizer.java:181-197 | the step-by-step check accepts exactly when every assignment from that point on fits |
| Feasibility.ScannedAll | src/main/java/PaymentOptimizer.java:181-197 | when every assignment fits, the walk scans the whole list |
| Feasibility.ScannedStops | src/main/java/PaymentOptimizer.java:187-191 | the walk stops just after the first assignment that does not fit |
| Feasibility.FirstMisfitExists | src/main/java/PaymentOptimizer.java:187-191 | a candidate with some assignment that does not fit has a first such assignment |
| Feasibility.EvaluateMeaning | src/main/java/PaymentOptimizer.java:173-200 | a valid result's totalCost is the sum of all costs; an invalid one's is the sum up to and including the first assignment that does not fit |
| Feasibility.FeasibleIffWithinLimits | src/main/java/PaymentOptimizer.java:181-197 | valid exactly when every assignment's points fit the pool's limit minus the points used before it, and its card portion fits its method's limit minus what was spent on that method before it |
| Feasibility.FeasiblePrefix | src/main/java/PaymentOptimizer.java:181-197 | a prefix of a valid candidate is valid |
| Feasibility.FeasibleSpendsWithinLimits | src/main/java/PaymentOptimizer.java:181-197 | a valid candidate never spends more than a method's limit on that method |
| Feasibility.EvaluateCombination | src/main/java/PaymentOptimizer.java:173-200 | the loop with its shrinking limits map and early break returns exactly the specification's Evaluate |
| Comparator.CompareAmounts | src/main/java/PaymentOptimizer.java:218 | BigDecimal.compareTo returns −1, 0 or 1, with the sign of x − y |
| Comparator.CompareCombinations | src/main/java/PaymentOptimizer.java:202-219 | the comparator returns −1, 0 or 1 |
| Comparator.CompareCombinationsMeaning | src/main/java/PaymentOptimizer.java:202-219 | negative exactly when a ranks first in the lexicographic order (within the points limit first, then lower cost); positive exactly when b does; zero exactly on the same side of the limit at equal cost |
| Comparator.CompareCombinationsAntisymmetric | src/main/java/PaymentOptimizer.java:202-219 | swapping the arguments flips the sign, and a candidate ties with itself |
| Comparator.WithinPointsLimitComesFirst | src/main/java/PaymentOptimizer.java:209-213 | a candidate within the raw points limit beats one over it, whatever the costs |
| Comparator.CompareCombinationsTransitive | src/main/java/PaymentOptimizer.java:202-219 | ranking strictly before is transitive, also through ties |
| Selection.SelectBestIsValidCandidate | src/main/java/PaymentOptimizer.java:161-168 | the kept list is empty or one of the candidates, and a valid one |
| Selection.SelectBestEmptyIffNoneValid | src/main/java/PaymentOptimizer.java:154-171 | with no empty candidate, nothing is kept exactly when no candidate is valid |
| Selection.SelectBestIsMinimal | src/main/java/PaymentOptimizer.java:161-168 | no valid candidate compares strictly below the kept one |
| Selection.SelectBestIsFirstMinimal | src/main/java/PaymentOptimizer.java:161-168 | the kept list ranks strictly before every valid candidate generated earlier, so it is the first valid minimal candidate |
| Selection.CandidatesNonEmpty | src/main/java/PaymentOptimizer.java:233-254 | with at least one order, no candidate is empty |
| Selection.OptimalAssignmentsMeaning | src/main/java/PaymentOptimizer.java:154-171 | for at least one order, the result is empty exactly when no candidate is valid; otherwise it is a valid candidate that no valid candidate beats |
| Selection.FindOptimalAssignments | src/main/java/PaymentOptimizer.java:154-171 | the loop returns exactly the fold SelectBest over the generated candidates |
| Bookkeeping.Usage.constructor | src/main/java/PaymentOptimizer.java:41 | a new accumulator starts at zero |
| Bookkeeping.Usage.Add | src/main/java/PaymentOptimizer.java:43-45 | add increases the running total by the value |
| Bookkeeping.Usage.GetAmount | src/main/java/PaymentOptimizer.java:47-49 | getAmount is whole cents within half a cent of the running total |
| Bookkeeping.FreshUsageReadsZero | src/test/java/PaymentOptimizerTest.java:131-139 | a fresh accumulator reads 0.00 |
| Bookkeeping.InitializeUsageMap | src/main/java/PaymentOptimizer.java:102-106 | one new, zeroed accumulator per method id, different ids getting different objects |
| Bookkeeping.UsageIncrementMeaning | src/main/java/PaymentOptimizer.java:145-152 | only PUNKTY and the assignment's own method can grow, and only by a positive points or card portion |
| Bookkeeping.UsageIncrementConserves | src/main/java/PaymentOptimizer.java:145-152 | for an assignment with non-negative portions summing to its cost, what is added to PUNKTY and to its own method sums to the cost |
| Bookkeeping.UpdateUsageMap | src/main/java/PaymentOptimizer.java:145-152 | every accumulator grows by exactly its increment: the points to PUNKTY if positive, the card portion to the assignment's method if positive, and nothing elsewhere |
| Bookkeeping.SummaryLines | src/main/java/PaymentOptimizer.java:311-319 | every summary line is a listed method that has an accumulator with a positive rounded amount |
| Bookkeeping.SummaryLinesMembership | src/main/java/PaymentOptimizer.java:311-319 | a listed method gets a line exactly when it has an accumulator whose rounded amount is positive, and the line shows that amount |
| Scenarios.FixtureMap | src/test/java/PaymentOptimizerTest.java:35-55 | the test fixture's map: PUNKTY (0%, 50.00), mZysk (10%, 1000.00), BosBankrut (5%, 500.00), each under its id |
| Scenarios.CreateFixtureMap | src/test/java/PaymentOptimizerTest.java:115-129 | the fixture's methods give a map with the three ids and mZysk at 10%; no methods give an empty map |
| Scenarios.FindOrderExamples | src/test/java/PaymentOptimizerTest.java:207-214 | order "1" is found; order "2" is not |
| Scenarios.DiscountedCostFivePercent | src/main/java/PaymentOptimizer.java:306-309 | 100.00 at 5% is 95.00 |
| Scenarios.Order1Options | src/test/java/PaymentOptimizerTest.java:228-235 | the 100.00 order is offered mZysk at 90.00 and BosBankrut at 95.00, nothing else |
| Scenarios.Order1Combinations | src/test/java/PaymentOptimizerTest.java:228-235 | that order alone yields the two one-assignment candidates, mZysk first |
| Scenarios.EvaluateExamples | src/test/java/PaymentOptimizerTest.java:162-181 | mZysk at 90.00 is valid at 90.00; 100.00 points against the 50.00 pool is invalid |
| Scenarios.CompareExamples | src/test/java/PaymentOptimizerTest.java:253-270 | mZysk at 90.00 ranks before BosBankrut at 95.00, and before 60.00 points over the 50.00 pool |
| Scenarios.Order1Selection | src/test/java/PaymentOptimizerTest.java:141-147 | the optimizer picks mZysk at 90.00 for the 100.00 order |
| Scenarios.LargeOrderHasNoOption | src/test/java/PaymentOptimizerTest.java:149-160 | a 1100.00 order without a promotions list has no option, no candidate and an empty result |
| Scenarios.SmallOrderGetsSplit | src/test/java/PaymentOptimizerTest.java:237-251 | a 20.00 order without a promotions list is offered 15.00 points plus 3.00 on mZysk |
| Scenarios.UpdateUsageExample | src/test/java/PaymentOptimizerTest.java:216-226 | after 10.00 points and 90.00 on mZysk, the accumulators read 10.00, 90.00 and 0.00 |
| Scenarios.UsageSummaryExample | src/test/java/PaymentOptimizerTest.java:305-321 | with 100.00 on mZysk and 20.00 points, the summary shows "mZysk 100.00" then "PUNKTY 20.00", and no BosBankrut |

## Left out

- JSON loading and program entry (`loadOrders`, `loadPaymentMethods`, `main`, the Jackson annotations). These are file I/O through a library outside this model.
- Console output (`processAndPrintResults`, `printOrderProcessingInfo`, the candidate-count `println`). `printUsageSummary` is modelled only as the choice and order of the lines it prints (`Bookkeeping.UsageSummary`), not as text.
- Java `double` arithmetic:
  - `1 - discount / 100.0` and `1 - POINTS_CARD_COMBO_DISCOUNT` are taken as the exact fractions (100 − d)/100 and 9/10.
  - For some discounts the double's shortest decimal form differs from the exact fraction in the last digit. That can move a half-up tie by one cent.
- BigDecimal scale: amounts are compared by numeric value only. `100.0` and `100.00` are the same `real`.
- `MAX_COST` and `bestTotalCost` are dead code: they are written but never read.
- Runtime failures are preconditions rather than modelled exceptions:
  - A missing `PUNKTY` or `mZysk` entry fails on a null dereference (lines 206, 247, 267). Every search and selection member therefore requires both ids in the map (`HasReservedMethods`), even in a run that never reaches mZysk.
  - A repeated id in `createPaymentMethodMap` throws; `DistinctIds` is required instead.
  - `updateUsageMap` requires the accumulator it adds to.
  - `Bookkeeping.UpdateUsageMap` requires different ids to hold different `Usage` objects. `initializeUsageMap` always builds them that way.
- Bookkeeping.UsageIncrementConserves: requires non-negative portions. `updateUsageMap` adds only positive amounts (lines 146 and 149), so a negative points or card portion is skipped and the amounts booked then differ from the cost.
- Bookkeeping.UsageSummary: carries no contract of its own. `Bookkeeping.SummaryLinesMembership` states which lines it shows.
- `evaluateCombination`'s totalCost: an invalid candidate reports the sum of costs up to and including the first assignment that does not fit, because the cost is added before the check. A "total of all costs" reading holds only for valid candidates. The model follows the code (`Feasibility.EvaluateMeaning`).
- Selection.SelectBestEmptyIffNoneValid: requires every candidate to be non-empty. With zero orders the only candidate is the empty list. It is valid, yet an empty kept list cannot be told apart from "nothing kept", so the result is empty although a valid candidate exists. `Selection.OptimalAssignmentsMeaning` therefore requires at least one order.
- Enumeration.CombinationSearch.TryOption and Enumeration.CombinationSearch.TryPromotion: these factor out steps the Java writes inline. TryOption is the add / recurse / remove-last sequence repeated in the three `payWith*` methods; TryPromotion is the body of the promotions loop. `PayWithOtherMethod` returns as soon as it has tried the split, which is equivalent because nothing follows it in the Java.
- Java list aliasing: `current` and `result` are `seq` fields reassigned by the methods. The copies the Java makes (`new ArrayList<>(current)`) are therefore implicit.
