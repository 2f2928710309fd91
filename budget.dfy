/** The budget page: the cost breakdown computed from an estimate, and the
    choice between a stored, a fetched and the built-in default estimate.
    Division is exact rational arithmetic rounded as `Math.round` rounds. */
module Budget {
  import opened Wrappers
  import opened JsText
  import Schema
  import MockApi

  /** The two cost fields the page reads from each leg; either may be
      missing. */
  datatype LegCosts = LegCosts(travelCost: Option<int>, stayCost: Option<int>)

  /** The fields of an estimate the page reads. */
  datatype Estimate = Estimate(totalEstimatedCost: Option<int>, legs: Option<seq<LegCosts>>)

  /** What the page shows: the headline total (left as it was when the
      estimate has no truthy total), the three category amounts, and the
      three percentages of the bar and legend. */
  datatype Breakdown = Breakdown(
    totalShown: Option<int>, travelShown: int, stayShown: int, activitiesShown: int,
    travelPct: int, stayPct: int, actPct: int)

  /** The estimate shown when none is stored or fetched. */
  const DefaultEstimate := Estimate(Some(6700), Some([LegCosts(Some(2500), Some(3000))]))

  // ---------------------------------------------------------------- rounding

  /** The floor of `a / b` for a divisor of either sign. */
  function FloorDiv(a: int, b: int): (q: int)
    requires b != 0
    ensures b > 0 ==> b * q <= a < b * q + b
    ensures b < 0 ==> b * q >= a > b * q + b
  {
    if b > 0 then a / b else (-a) / (-b)
  }

  /** `Math.round(part / total * 100)`: the nearest integer to
      `100 * part / total`, halves rounded up, i.e. the floor of
      `(200 * part + total) / (2 * total)`. */
  function RoundPercent(part: int, total: int): int
    requires total != 0
  {
    FloorDiv(200 * part + total, 2 * total)
  }

  /** The rounded percentage is within one half of the exact one, halves
      going up: `r - 1/2 <= 100 * part / total < r + 1/2`. */
  lemma RoundPercentBounds(part: int, total: int)
    requires total != 0
    ensures var r := RoundPercent(part, total);
      if total > 0 then total * (2 * r - 1) <= 200 * part < total * (2 * r + 1)
      else total * (2 * r - 1) >= 200 * part > total * (2 * r + 1)
  {
    var r := RoundPercent(part, total);
    assert 2 * total * r == total * (2 * r);
    assert total * (2 * r - 1) == total * (2 * r) - total;
    assert total * (2 * r + 1) == total * (2 * r) + total;
  }

  /** A share of a positive total rounds to a percentage in `[0, 100]`. */
  lemma RoundPercentOfShare(part: int, total: int)
    requires 0 <= part <= total && total > 0
    ensures 0 <= RoundPercent(part, total) <= 100
  {
    RoundPercentBounds(part, total);
    var r := RoundPercent(part, total);
    MulLessCancels(total, 0, 2 * r + 1);
    MulAtMostCancels(total, 2 * r - 1, 200);
  }

  /** A positive factor can be cancelled from a strict inequality. */
  lemma MulLessCancels(t: int, x: int, y: int)
    requires t > 0 && t * x < t * y
    ensures x < y
  {
  }

  /** A positive factor can be cancelled from an inequality. */
  lemma MulAtMostCancels(t: int, x: int, y: int)
    requires t > 0 && t * x <= t * y
    ensures x <= y
  {
  }

  // ---------------------------------------------------------------- the breakdown

  /** The travel costs summed as the loop sums them, `leg.travelCost || 0`. */
  function SumTravel(legs: seq<LegCosts>): int {
    if legs == [] then 0 else SumTravel(legs[..|legs| - 1]) + IntOr(legs[|legs| - 1].travelCost, 0)
  }

  /** The stay costs, `leg.stayCost || 0`. */
  function SumStay(legs: seq<LegCosts>): int {
    if legs == [] then 0 else SumStay(legs[..|legs| - 1]) + IntOr(legs[|legs| - 1].stayCost, 0)
  }

  /** `x || d` for a computed number: zero falls back to `d`. */
  function NonZeroOr(x: int, d: int): int {
    if x != 0 then x else d
  }

  /** The breakdown `updateBudgetPage` shows for `e` and the summed
      travel and stay costs. A missing total makes the activities amount
      NaN, which is not positive, so 1200 is shown. */
  function BudgetView(e: Estimate, travel: int, stay: int): (b: Breakdown)
    ensures b.travelPct + b.stayPct + b.actPct == 100
    ensures b.travelPct != 0 && b.stayPct != 0
    ensures b.totalShown.Some? <==> e.totalEstimatedCost.Some? && e.totalEstimatedCost.value != 0
    ensures b.totalShown.Some? ==> b.totalShown == e.totalEstimatedCost
    ensures b.travelShown != 0 && b.stayShown != 0 && b.activitiesShown > 0
    ensures b.travelShown == NonZeroOr(travel, 2500) && b.stayShown == NonZeroOr(stay, 3000)
    ensures b.activitiesShown ==
      if e.totalEstimatedCost.Some? && e.totalEstimatedCost.value - travel - stay > 0
      then e.totalEstimatedCost.value - travel - stay else 1200
    ensures b.travelPct == NonZeroOr(RoundPercent(travel, IntOr(e.totalEstimatedCost, 6700)), 37)
    ensures b.stayPct == NonZeroOr(RoundPercent(stay, IntOr(e.totalEstimatedCost, 6700)), 45)
  {
    var activities: Option<int> := if e.totalEstimatedCost.Some? then Some(e.totalEstimatedCost.value - travel - stay) else None;
    var total := IntOr(e.totalEstimatedCost, 6700);
    var travelPct := NonZeroOr(RoundPercent(travel, total), 37);
    var stayPct := NonZeroOr(RoundPercent(stay, total), 45);
    Breakdown(
      if e.totalEstimatedCost.Some? && e.totalEstimatedCost.value != 0 then e.totalEstimatedCost else None,
      NonZeroOr(travel, 2500), NonZeroOr(stay, 3000),
      if activities.Some? && activities.value > 0 then activities.value else 1200,
      travelPct, stayPct, 100 - travelPct - stayPct)
  }

  /** The breakdown of an estimate, its leg costs summed. */
  function BreakdownOf(e: Estimate): Breakdown {
    var legs := if e.legs.Some? then e.legs.value else [];
    BudgetView(e, SumTravel(legs), SumStay(legs))
  }

  /** `updateBudgetPage`: sum the legs' travel and stay costs in one pass,
      then derive the amounts and percentages. */
  method UpdateBudgetPage(e: Estimate) returns (b: Breakdown)
    ensures b == BreakdownOf(e)
    ensures b.travelPct + b.stayPct + b.actPct == 100
  {
    var travelCost := 0;
    var stayCost := 0;
    if e.legs.Some? {
      var legs := e.legs.value;
      var i := 0;
      while i < |legs|
        invariant 0 <= i <= |legs|
        invariant travelCost == SumTravel(legs[..i]) && stayCost == SumStay(legs[..i])
      {
        travelCost := travelCost + IntOr(legs[i].travelCost, 0);
        stayCost := stayCost + IntOr(legs[i].stayCost, 0);
        assert legs[..i + 1][..i] == legs[..i];
        i := i + 1;
      }
      assert legs[..i] == legs;
    }
    b := BudgetView(e, travelCost, stayCost);
  }

  /** A travel percentage other than 37, or a stay percentage other than
      45, is `Math.round` of the exact share of the total (6700 when the
      estimate has none): within one half of it, halves rounded up. */
  lemma PercentagesRoundTheShares(e: Estimate, travel: int, stay: int)
    requires IntOr(e.totalEstimatedCost, 6700) > 0
    ensures var total := IntOr(e.totalEstimatedCost, 6700);
      var b := BudgetView(e, travel, stay);
      (b.travelPct != 37 ==> total * (2 * b.travelPct - 1) <= 200 * travel < total * (2 * b.travelPct + 1)) &&
      (b.stayPct != 45 ==> total * (2 * b.stayPct - 1) <= 200 * stay < total * (2 * b.stayPct + 1))
  {
    var total := IntOr(e.totalEstimatedCost, 6700);
    RoundPercentBounds(travel, total);
    RoundPercentBounds(stay, total);
  }

  /** When travel and stay are each a share of a positive total, both
      percentages lie in `[1, 100]`, and activities take what is left,
      which may be as low as -100. */
  lemma SharePercentagesInRange(e: Estimate, travel: int, stay: int)
    requires e.totalEstimatedCost.Some? && e.totalEstimatedCost.value > 0
    requires 0 <= travel <= e.totalEstimatedCost.value && 0 <= stay <= e.totalEstimatedCost.value
    ensures var b := BudgetView(e, travel, stay);
      1 <= b.travelPct <= 100 && 1 <= b.stayPct <= 100 && -100 <= b.actPct <= 98
  {
    RoundPercentOfShare(travel, e.totalEstimatedCost.value);
    RoundPercentOfShare(stay, e.totalEstimatedCost.value);
  }

  /** The built-in estimate shows 2500 travel, 3000 stay, 1200 activities,
      and 37 / 45 / 18 percent. */
  lemma DefaultBreakdown()
    ensures BreakdownOf(DefaultEstimate) == Breakdown(Some(6700), 2500, 3000, 1200, 37, 45, 18)
  {
    var legs := [LegCosts(Some(2500), Some(3000))];
    assert legs[..0] == [];
    assert SumTravel(legs) == 2500 && SumStay(legs) == 3000;
    assert RoundPercent(2500, 6700) == 37;
    assert RoundPercent(3000, 6700) == 45;
  }

  /** The activities share is whatever the other two leave, so it is
      negative when travel and stay exceed the total. */
  lemma ActivitiesShareCanBeNegative()
    ensures BreakdownOf(Estimate(Some(100), Some([LegCosts(Some(60), Some(60))]))).actPct == -20
  {
    var legs := [LegCosts(Some(60), Some(60))];
    assert legs[..0] == [];
    assert SumTravel(legs) == 60 && SumStay(legs) == 60;
    assert RoundPercent(60, 100) == 60;
  }

  // ---------------------------------------------------------------- the mock itinerary on this page

  /** The cost fields of mock legs as the page reads them. */
  function CostsOf(legs: seq<MockApi.Leg>): (view: seq<LegCosts>)
    ensures |view| == |legs|
  {
    seq(|legs|, i requires 0 <= i < |legs| => LegCosts(Some(legs[i].travelCost), Some(legs[i].stayCost)))
  }

  /** The budget page's view of a mock itinerary. */
  function OfItinerary(it: MockApi.Itinerary): Estimate {
    Estimate(Some(it.totalEstimatedCost), Some(CostsOf(it.legs)))
  }

  /** The page sums a mock itinerary's legs to the mock's own sums. */
  lemma {:induction false} SumsOfItinerary(legs: seq<MockApi.Leg>)
    ensures SumTravel(CostsOf(legs)) == MockApi.SumTravel(legs)
    ensures SumStay(CostsOf(legs)) == MockApi.SumStay(legs)
    decreases |legs|
  {
    if legs != [] {
      var n := |legs| - 1;
      SumsOfItinerary(legs[..n]);
      assert CostsOf(legs)[..n] == CostsOf(legs[..n]);
    }
  }

  /** An itinerary whose total is exactly its travel plus its stay shows
      the 1200 activities placeholder. */
  lemma SplitItineraryShowsPlaceholderActivities(it: MockApi.Itinerary)
    requires it.totalEstimatedCost == MockApi.SumTravel(it.legs) + MockApi.SumStay(it.legs)
    ensures BreakdownOf(OfItinerary(it)).activitiesShown == 1200
  {
    SumsOfItinerary(it.legs);
  }

  /** A mock itinerary's total is exactly travel plus stay, so its
      activities amount is zero and the page shows the 1200 placeholder. */
  lemma MockItineraryShowsPlaceholderActivities(stops: seq<MockApi.Stop>)
    ensures BreakdownOf(OfItinerary(MockApi.MockEstimation(stops))).activitiesShown == 1200
  {
    MockApi.MockTotalIsTravelPlusStay(stops);
    SplitItineraryShowsPlaceholderActivities(MockApi.MockEstimation(stops));
  }

  // ---------------------------------------------------------------- loading the page

  /** Which estimate the page ends up showing. */
  datatype Source = Stored | Fetched | Default

  /** The load handler. A truthy stored estimate that parses to an object
      is used as is. Otherwise, with a truthy trip id, the trip is fetched
      (`tripFetch`, `None` on success) and then `EstimateAPI.full` (which
      never fails) is asked; its answer `full` is stored as JSON text,
      `None` standing for a `null` body, which is stored as "null" and,
      being falsy, leaves the built-in estimate. A failed trip fetch skips
      the request. With no estimate, the built-in one is shown without the
      toast. `parse` is `JSON.parse`, `None` for a failure or a falsy value. */
  method LoadBudgetPage(
    stored: Option<string>, tripId: Option<string>, parse: string -> Option<Estimate>,
    tripFetch: Option<Schema.Error>, full: Option<Estimate>, stringify: Estimate -> string)
    returns (b: Breakdown, source: Source, storedAfter: Option<string>, loadedToast: bool)
    ensures var parsed := if Truthy(stored) then parse(stored.value) else None;
      var fetched := parsed.None? && Truthy(tripId) && tripFetch.None?;
      (parsed.Some? ==> source == Stored && b == BreakdownOf(parsed.value)) &&
      (fetched && full.Some? ==> source == Fetched && b == BreakdownOf(full.value)) &&
      (parsed.None? && !(fetched && full.Some?) ==> source == Default && b == BreakdownOf(DefaultEstimate)) &&
      storedAfter == (if fetched then Some(if full.Some? then stringify(full.value) else "null") else stored)
    ensures loadedToast <==> source != Default
    ensures b.travelPct + b.stayPct + b.actPct == 100
  {
    var estimate: Option<Estimate> := None;
    if Truthy(stored) {
      estimate := parse(stored.value);
    }
    source := Stored;
    storedAfter := stored;
    if estimate.None? && Truthy(tripId) {
      if tripFetch.None? {
        estimate := full;
        storedAfter := Some(if full.Some? then stringify(full.value) else "null");
        source := Fetched;
      }
    }
    if estimate.Some? {
      b := UpdateBudgetPage(estimate.value);
      loadedToast := true;
    } else {
      source := Default;
      b := UpdateBudgetPage(DefaultEstimate);
      loadedToast := false;
    }
  }
}
