/** The front end's offline estimator: the deterministic cost model used
    when the estimation endpoints fail, and the fallback choice of
    `EstimateAPI.single` and `EstimateAPI.full`. */
module MockApi {
  import opened Wrappers
  import opened JsText
  import Schema

  /** A stop as the front end receives it from GET /trip/:id. The mode and
      the day count may be missing (`undefined`/`null`). */
  datatype Stop = Stop(city: string, mode: Option<string>, stayDays: Option<int>)

  /** One row of the price table: ticket price and cost per day of stay. */
  datatype Rates = Rates(travel: int, perDay: int)

  /** One leg of a mock itinerary. */
  datatype Leg = Leg(
    from: string, to: string, mode: string, stayDays: int, travelTime: string,
    travelCost: int, stayCost: int, legTotal: int)

  /** The object `getMockEstimation` returns. */
  datatype Itinerary = Itinerary(
    tripName: string, totalDays: int, totalEstimatedCost: int, legs: seq<Leg>,
    summary: string, tips: seq<string>)

  /** The object `getMockSingleEstimate` returns. */
  datatype SingleEstimate = SingleEstimate(
    travelTime: string, ticketCost: int, dailyStayCost: int, totalStayCost: int, totalCost: int,
    budgetReasoning: string, assumptions: seq<string>)

  /** `baseCosts[mode] || baseCosts.train`: flight, train and bus have their
      own rates; every other mode is priced as train. */
  function RatesFor(mode: string): Rates {
    if mode == "flight" then Rates(5000, 2500)
    else if mode == "bus" then Rates(400, 1200)
    else Rates(800, 1500)
  }

  /** The travel time shown on an itinerary leg. */
  function LegTravelTime(mode: string): string {
    if mode == "flight" then "2h" else if mode == "train" then "5h 30m" else "8h"
  }

  /** The travel time of a single-leg estimate (a flight is shorter here). */
  function SingleTravelTime(mode: string): string {
    if mode == "flight" then "1h 30m" else if mode == "train" then "5h 30m" else "8h"
  }

  /** `stop.mode || 'train'`. */
  function ModeOf(s: Stop): (m: string)
    ensures m != ""
  {
    StringOr(s.mode, "train")
  }

  /** `stop.stay_days || 1`. */
  function DaysOf(s: Stop): (d: int)
    ensures d != 0
  {
    IntOr(s.stayDays, 1)
  }

  /** What one stop adds to the total: its ticket and its stay. */
  function LegCost(s: Stop): int {
    RatesFor(ModeOf(s)).travel + RatesFor(ModeOf(s)).perDay * DaysOf(s)
  }

  /** Leg `i` of the mock itinerary of `stops`. */
  function MockLeg(stops: seq<Stop>, i: int): Leg
    requires 0 <= i < |stops|
  {
    var mode := ModeOf(stops[i]);
    var days := DaysOf(stops[i]);
    var costs := RatesFor(mode);
    Leg(if i == 0 then "Starting Point" else stops[i - 1].city, stops[i].city, mode, days,
        LegTravelTime(mode), costs.travel, costs.perDay * days, costs.travel + costs.perDay * days)
  }

  /** The legs of the mock itinerary: one per stop, in stop order, each
      leaving from the previous stop's city. */
  function MockLegs(stops: seq<Stop>): (legs: seq<Leg>)
    ensures |legs| == |stops|
    ensures forall i :: 0 <= i < |legs| ==> legs[i].to == stops[i].city
    ensures |legs| > 0 ==> legs[0].from == "Starting Point"
    ensures forall i :: 0 < i < |legs| ==> legs[i].from == legs[i - 1].to
    ensures forall i :: 0 <= i < |legs| ==>
      legs[i].stayDays == DaysOf(stops[i]) && legs[i].stayDays != 0 &&
      legs[i].mode == ModeOf(stops[i]) &&
      legs[i].travelTime == LegTravelTime(legs[i].mode) &&
      legs[i].travelCost == RatesFor(legs[i].mode).travel &&
      legs[i].stayCost == RatesFor(legs[i].mode).perDay * legs[i].stayDays &&
      legs[i].legTotal == legs[i].travelCost + legs[i].stayCost
  {
    seq(|stops|, i requires 0 <= i < |stops| => MockLeg(stops, i))
  }

  /** The running total of the loop: the costs of the stops, in order. */
  function TotalCost(stops: seq<Stop>): int {
    if stops == [] then 0 else TotalCost(stops[..|stops| - 1]) + LegCost(stops[|stops| - 1])
  }

  /** `stops.reduce((sum, s) => sum + (s.stay_days || 1), 0)`. */
  function TotalDays(stops: seq<Stop>): int {
    if stops == [] then 0 else TotalDays(stops[..|stops| - 1]) + DaysOf(stops[|stops| - 1])
  }

  /** The sum of the legs' totals. */
  function SumLegTotals(legs: seq<Leg>): int {
    if legs == [] then 0 else SumLegTotals(legs[..|legs| - 1]) + legs[|legs| - 1].legTotal
  }

  /** The sum of the legs' day counts. */
  function SumLegDays(legs: seq<Leg>): int {
    if legs == [] then 0 else SumLegDays(legs[..|legs| - 1]) + legs[|legs| - 1].stayDays
  }

  /** The summary line: "Multi-city trip covering <n> destinations with
      AI-estimated budget". */
  function Summary(n: nat): string {
    "Multi-city trip covering " + IntToString(n) + " destinations with AI-estimated budget"
  }

  /** The three fixed tips. The rupee sign of the third appears in the
      source as the three characters U+201A U+00C7 U+03C0 (UTF-8 read as
      Mac Roman), and is kept that way. */
  const Tips: seq<string> := [
    "Book transportation 2 weeks in advance for better prices",
    "Consider local homestays for authentic experiences",
    "Keep \U{201A}\U{00C7}\U{03C0}500-1000 daily for food and miscellaneous expenses"
  ]

  /** The result of `getMockEstimation(stops)`. */
  function MockEstimation(stops: seq<Stop>): Itinerary {
    Itinerary("Your Trip", TotalDays(stops), TotalCost(stops), MockLegs(stops), Summary(|stops|), Tips)
  }

  /** `getMockEstimation`: walk the stops once, pushing a leg and adding its
      total to the running cost. */
  method GetMockEstimation(stops: seq<Stop>) returns (e: Itinerary)
    ensures e == MockEstimation(stops)
  {
    var totalCost := 0;
    var legs: seq<Leg> := [];
    var index := 0;
    while index < |stops|
      invariant 0 <= index <= |stops|
      invariant legs == MockLegs(stops)[..index]
      invariant totalCost == TotalCost(stops[..index])
    {
      var stop := stops[index];
      var mode := ModeOf(stop);
      var days := DaysOf(stop);
      var costs := RatesFor(mode);
      var travelCost := costs.travel;
      var stayCost := costs.perDay * days;
      var legTotal := travelCost + stayCost;
      totalCost := totalCost + legTotal;
      var leg := Leg(if index == 0 then "Starting Point" else stops[index - 1].city, stop.city, mode, days,
                     LegTravelTime(mode), travelCost, stayCost, legTotal);
      assert leg == MockLeg(stops, index);
      MockLoopStep(stops, index);
      legs := legs + [leg];
      index := index + 1;
    }
    assert stops[..index] == stops;
    assert legs == MockLegs(stops);
    e := Itinerary("Your Trip", TotalDays(stops), totalCost, legs, Summary(|stops|), Tips);
  }

  /** One turn of the loop of `getMockEstimation` adds leg `index` and its total. */
  lemma MockLoopStep(stops: seq<Stop>, index: nat)
    requires index < |stops|
    ensures MockLegs(stops)[..index + 1] == MockLegs(stops)[..index] + [MockLeg(stops, index)]
    ensures TotalCost(stops[..index + 1]) == TotalCost(stops[..index]) + MockLeg(stops, index).legTotal
  {
    assert stops[..index + 1][..index] == stops[..index];
  }

  // ---------------------------------------------------------------- properties of the mock itinerary

  /** The legs of a prefix are a prefix of the legs. */
  lemma MockLegsOfPrefix(stops: seq<Stop>, n: nat)
    requires n <= |stops|
    ensures MockLegs(stops[..n]) == MockLegs(stops)[..n]
  {
    var a := MockLegs(stops[..n]);
    var b := MockLegs(stops)[..n];
    forall i | 0 <= i < n ensures a[i] == b[i] {
      assert MockLeg(stops[..n], i) == MockLeg(stops, i);
    }
  }

  /** The total cost is the sum of the leg totals. */
  lemma {:induction false} TotalCostIsSumOfLegTotals(stops: seq<Stop>)
    ensures TotalCost(stops) == SumLegTotals(MockLegs(stops))
    decreases |stops|
  {
    if stops != [] {
      var n := |stops| - 1;
      TotalCostIsSumOfLegTotals(stops[..n]);
      MockLegsOfPrefix(stops, n);
      var legs := MockLegs(stops);
      assert legs[..n] == MockLegs(stops[..n]);
      assert legs[n].legTotal == LegCost(stops[n]);
    }
  }

  /** The day total is the sum of the legs' day counts, so it counts a
      missing or zero stay as one day, as the stay cost does. */
  lemma {:induction false} TotalDaysIsSumOfLegDays(stops: seq<Stop>)
    ensures TotalDays(stops) == SumLegDays(MockLegs(stops))
    decreases |stops|
  {
    if stops != [] {
      var n := |stops| - 1;
      TotalDaysIsSumOfLegDays(stops[..n]);
      MockLegsOfPrefix(stops, n);
      assert MockLegs(stops)[..n] == MockLegs(stops[..n]);
    }
  }

  /** The cost of the mock itinerary is its travel plus its stay cost. */
  lemma {:induction false} SumLegTotalsSplits(legs: seq<Leg>)
    requires forall i :: 0 <= i < |legs| ==> legs[i].legTotal == legs[i].travelCost + legs[i].stayCost
    ensures SumLegTotals(legs) == SumTravel(legs) + SumStay(legs)
    decreases |legs|
  {
    if legs != [] {
      SumLegTotalsSplits(legs[..|legs| - 1]);
    }
  }

  /** The sum of the legs' ticket costs. */
  function SumTravel(legs: seq<Leg>): int {
    if legs == [] then 0 else SumTravel(legs[..|legs| - 1]) + legs[|legs| - 1].travelCost
  }

  /** The sum of the legs' stay costs. */
  function SumStay(legs: seq<Leg>): int {
    if legs == [] then 0 else SumStay(legs[..|legs| - 1]) + legs[|legs| - 1].stayCost
  }

  /** The estimate of the mock itinerary splits exactly into travel and stay. */
  lemma MockTotalIsTravelPlusStay(stops: seq<Stop>)
    ensures MockEstimation(stops).totalEstimatedCost
         == SumTravel(MockEstimation(stops).legs) + SumStay(MockEstimation(stops).legs)
  {
    TotalCostIsSumOfLegTotals(stops);
    SumLegTotalsSplits(MockLegs(stops));
  }

  /** Appending a stop adds one leg from the previous last city, and adds
      that stop's cost and days to the totals. */
  lemma MockEstimationAppend(stops: seq<Stop>, s: Stop)
    ensures var before := MockEstimation(stops);
      var after := MockEstimation(stops + [s]);
      after.legs[..|stops|] == before.legs &&
      after.legs[|stops|].from == (if stops == [] then "Starting Point" else stops[|stops| - 1].city) &&
      after.legs[|stops|].to == s.city &&
      after.totalEstimatedCost == before.totalEstimatedCost + LegCost(s) &&
      after.totalDays == before.totalDays + DaysOf(s)
  {
    assert (stops + [s])[..|stops|] == stops;
    MockLegsOfPrefix(stops + [s], |stops|);
  }

  /** A mode outside the table is kept as given but priced as train, and
      takes "8h". */
  lemma UnknownModePricedAsTrain(stops: seq<Stop>, i: int)
    requires 0 <= i < |stops|
    requires ModeOf(stops[i]) != "flight" && ModeOf(stops[i]) != "train" && ModeOf(stops[i]) != "bus"
    ensures MockLegs(stops)[i].mode == ModeOf(stops[i])
    ensures MockLegs(stops)[i].travelCost == 800
    ensures MockLegs(stops)[i].stayCost == 1500 * DaysOf(stops[i])
    ensures MockLegs(stops)[i].travelTime == "8h"
  {
  }

  /** No stops: no legs, nothing to pay, no days, and the generic name. */
  lemma EmptyEstimation()
    ensures MockEstimation([]).legs == []
    ensures MockEstimation([]).totalDays == 0
    ensures MockEstimation([]).totalEstimatedCost == 0
    ensures MockEstimation([]).tripName == "Your Trip"
  {
  }

  /** Mumbai by flight for two days, then Goa by train for three:
      (5000 + 2500 * 2) + (800 + 1500 * 3) = 10000 + 5300 = 15300. */
  lemma MumbaiGoaExample()
    ensures var e := MockEstimation([Stop("Mumbai", Some("flight"), Some(2)), Stop("Goa", Some("train"), Some(3))]);
      e.totalEstimatedCost == 15300 && e.totalDays == 5 &&
      e.legs[0].legTotal == 10000 && e.legs[1].legTotal == 5300 &&
      e.legs[1].from == "Mumbai" && e.legs[1].to == "Goa"
  {
    var stops := [Stop("Mumbai", Some("flight"), Some(2)), Stop("Goa", Some("train"), Some(3))];
    assert stops[..1] == [stops[0]] && stops[..1][..0] == [];
    assert TotalCost(stops[..1]) == 10000;
    assert TotalDays(stops[..1]) == 2;
  }

  // ---------------------------------------------------------------- single leg

  /** `getMockSingleEstimate(from, to, mode, days)`. */
  function MockSingleEstimate(from: string, to: string, mode: string, days: int): (e: SingleEstimate)
    ensures e.totalCost == e.ticketCost + e.totalStayCost
    ensures e.totalStayCost == e.dailyStayCost * days
    ensures e.ticketCost == RatesFor(mode).travel && e.dailyStayCost == RatesFor(mode).perDay
  {
    var costs := RatesFor(mode);
    SingleEstimate(
      SingleTravelTime(mode), costs.travel, costs.perDay, costs.perDay * days, costs.travel + costs.perDay * days,
      "Estimated based on average " + mode + " ticket prices and mid-range accommodations in " + to,
      ["Based on current " + mode + " fare trends",
       "Accommodation cost for " + IntToString(days) + " nights at mid-range hotels",
       "Prices are approximate and may vary by season"])
  }

  /** The single-leg mock prices a stop exactly as the itinerary mock
      prices its leg; only a flight's travel time differs. */
  lemma SingleAgreesWithLeg(stops: seq<Stop>, i: int, from: string)
    requires 0 <= i < |stops|
    ensures var leg := MockLegs(stops)[i];
      var single := MockSingleEstimate(from, stops[i].city, leg.mode, leg.stayDays);
      single.totalCost == leg.legTotal && single.ticketCost == leg.travelCost &&
      single.totalStayCost == leg.stayCost &&
      (single.travelTime == leg.travelTime <==> leg.mode != "flight")
  {
  }

  // ---------------------------------------------------------------- fallback choice

  /** What `EstimateAPI.single` returns: the server's estimate or the mock. */
  datatype SingleOutcome = RemoteSingle(json: Schema.Json) | MockSingle(estimate: SingleEstimate)

  /** What `EstimateAPI.full` returns: the server's estimate or a mock
      itinerary. */
  datatype FullOutcome = RemoteFull(json: Schema.Json) | MockFull(itinerary: Itinerary)

  /** The trip as GET /trip/:id returns it, as far as the fallback reads it. */
  datatype TripView = TripView(name: string, stops: Option<seq<Stop>>)

  /** `EstimateAPI.single`: the server's answer, or the mock when the
      request fails. */
  function EstimateSingle(
    from: string, to: string, mode: string, days: int, response: Result<Schema.Json, Schema.Error>): (r: SingleOutcome)
    ensures r.RemoteSingle? <==> response.Ok?
    ensures response.Ok? ==> r.json == response.value
    ensures response.Err? ==> r == MockSingle(MockSingleEstimate(from, to, mode, days))
    ensures response.Err? ==> r.estimate.totalCost == RatesFor(mode).travel + RatesFor(mode).perDay * days
  {
    if response.Ok? then RemoteSingle(response.value) else MockSingle(MockSingleEstimate(from, to, mode, days))
  }

  /** `EstimateAPI.full`: the server's answer; when it fails, the mock of
      the refetched trip's stops under the trip's name; when the refetch
      fails too or the trip has no stop list, the mock of no stops. An
      empty stop list is truthy, so a trip with no stops still gets its
      own name. */
  function EstimateFull(
    response: Result<Schema.Json, Schema.Error>, refetched: Result<TripView, Schema.Error>): (r: FullOutcome)
    ensures r.RemoteFull? <==> response.Ok?
    ensures response.Ok? ==> r.json == response.value
    ensures r.MockFull? ==>
      var stops := if refetched.Ok? && refetched.value.stops.Some? then refetched.value.stops.value else [];
      r.itinerary.legs == MockLegs(stops) &&
      r.itinerary.totalEstimatedCost == SumLegTotals(r.itinerary.legs) &&
      r.itinerary.totalDays == SumLegDays(r.itinerary.legs) &&
      r.itinerary.summary == Summary(|stops|) && r.itinerary.tips == Tips &&
      r.itinerary.tripName == (if refetched.Ok? && refetched.value.stops.Some? then refetched.value.name else "Your Trip")
  {
    if response.Ok? then RemoteFull(response.value)
    else if refetched.Ok? && refetched.value.stops.Some? then
      var stops := refetched.value.stops.value;
      TotalCostIsSumOfLegTotals(stops);
      TotalDaysIsSumOfLegDays(stops);
      MockFull(MockEstimation(stops).(tripName := refetched.value.name))
    else
      MockFull(MockEstimation([]))
  }
}
