/** The itinerary page: which trip it shows, the duration it states, the
    quick-jump list and timeline headings it writes, and the budget figure
    it shows for what the estimation call resolves to. */
module ItineraryPage {
  import opened Wrappers
  import opened JsText
  import Schema
  import MockApi

  // ---------------------------------------------------------------- choosing the trip

  /** How the page starts: redirected to the dashboard with a warning, or
      loading `tripId` with `storedAfter` left as the remembered trip id. */
  datatype Start = Redirect(warning: string) | Load(tripId: string, storedAfter: Option<string>)

  /** The trip id comes from the remembered one unless the address has a
      truthy `id` parameter, which wins and is remembered in its place.
      Without a truthy id the page redirects and loads nothing. */
  function SelectTrip(stored: Option<string>, urlId: Option<string>): (start: Start)
    ensures start.Load? <==> Truthy(urlId) || Truthy(stored)
    ensures Truthy(urlId) ==> start == Load(urlId.value, urlId)
    ensures !Truthy(urlId) && Truthy(stored) ==> start == Load(stored.value, stored)
    ensures start.Redirect? ==> start.warning == "No trip selected. Redirecting to dashboard..."
  {
    var tripId := if Truthy(urlId) then urlId else stored;
    if Truthy(tripId) then Load(tripId.value, tripId)
    else Redirect("No trip selected. Redirecting to dashboard...")
  }

  /** A remembered id is never lost: whichever trip is loaded is the one
      remembered afterwards. */
  lemma LoadedTripIsRemembered(stored: Option<string>, urlId: Option<string>)
    requires SelectTrip(stored, urlId).Load?
    ensures SelectTrip(stored, urlId).storedAfter == Some(SelectTrip(stored, urlId).tripId)
  {
  }

  // ---------------------------------------------------------------- duration

  /** The duration text `updateStats` writes, `None` when the trip has no
      stop list (the element is then left alone). */
  function DurationText(stops: Option<seq<MockApi.Stop>>): (t: Option<string>)
    ensures t.Some? <==> stops.Some?
  {
    if stops.None? then None else Some(IntToString(MockApi.TotalDays(stops.value)) + " Days")
  }

  /** The number in the duration text is the sum of the stops' day counts,
      each missing or zero count read as 1, the same total the mock
      itinerary reports. */
  lemma DurationReadsBack(stops: seq<MockApi.Stop>)
    ensures ParseInt(DurationText(Some(stops)).value) == Some(MockApi.TotalDays(stops))
    ensures MockApi.TotalDays(stops) == MockApi.MockEstimation(stops).totalDays
  {
    ParseIntOfRendered(MockApi.TotalDays(stops), " Days");
  }

  /** With no negative day count, a trip lasts at least one day per stop. */
  lemma {:induction false} AtLeastOneDayPerStop(stops: seq<MockApi.Stop>)
    requires forall i :: 0 <= i < |stops| ==> stops[i].stayDays.None? || stops[i].stayDays.value >= 0
    ensures MockApi.TotalDays(stops) >= |stops|
  {
    if stops != [] {
      AtLeastOneDayPerStop(stops[..|stops| - 1]);
    }
  }

  // ---------------------------------------------------------------- day labels

  /** "Day <n>: <city>", the label a stop at position `i` gets. */
  function DayLabel(i: nat, city: string): (text: string)
    ensures |text| > 4 && text[..4] == "Day "
  {
    "Day " + (IntToString(i + 1) + (": " + city))
  }

  /** The day number in a label, whatever follows the label, reads back as
      the stop's position plus one. */
  lemma DayLabelReadsBack(i: nat, city: string, tail: string)
    ensures ParseInt((DayLabel(i, city) + tail)[4..]) == Some(i + 1)
  {
    var n := IntToString(i + 1);
    assert (DayLabel(i, city) + tail)[4..] == n + (": " + city + tail);
    ParseIntOfRendered(i + 1, ": " + city + tail);
  }

  // ---------------------------------------------------------------- quick jump

  /** One radio entry of the quick-jump list. */
  datatype JumpEntry = JumpEntry(caption: string, detail: string, checked: bool)

  /** "<n> day" or "<n> days" (plural only above one) and the mode, the
      missing mode read as train. */
  function JumpDetail(s: MockApi.Stop): (d: string)
    ensures |d| >= |MockApi.ModeOf(s)| + 3
    ensures d[|d| - |MockApi.ModeOf(s)| - 3..] == " • " + MockApi.ModeOf(s)
  {
    var days := MockApi.DaysOf(s);
    IntToString(days) + (" day" + (if days > 1 then "s" else "") + " • " + MockApi.ModeOf(s))
  }

  /** The quick-jump list `updateQuickJump` renders: `None` when the trip
      has no stops (the list is then left as it was). */
  function QuickJump(stops: Option<seq<MockApi.Stop>>): (r: Option<seq<JumpEntry>>)
    ensures r.Some? <==> stops.Some? && |stops.value| > 0
    ensures r.Some? ==> |r.value| == |stops.value|
    ensures r.Some? ==> forall i :: 0 <= i < |r.value| ==>
      r.value[i].caption == DayLabel(i, stops.value[i].city) &&
      r.value[i].detail == JumpDetail(stops.value[i]) && (r.value[i].checked <==> i == 0)
  {
    if stops.None? || |stops.value| == 0 then None
    else
      var s := stops.value;
      Some(seq(|s|, i requires 0 <= i < |s| => JumpEntry(DayLabel(i, s[i].city), JumpDetail(s[i]), i == 0)))
  }

  /** The detail of an entry starts with the stop's day count, which is
      never zero, and says "days" exactly when there is more than one. */
  lemma JumpDetailReadsBack(s: MockApi.Stop)
    ensures ParseInt(JumpDetail(s)) == Some(MockApi.DaysOf(s)) && MockApi.DaysOf(s) != 0
    ensures var n := |IntToString(MockApi.DaysOf(s))|;
      |JumpDetail(s)| > n + 5 && (JumpDetail(s)[n + 4] == 's' <==> MockApi.DaysOf(s) > 1)
  {
    var days := MockApi.DaysOf(s);
    var tail := " day" + (if days > 1 then "s" else "") + " • " + MockApi.ModeOf(s);
    ParseIntOfRendered(days, tail);
    assert JumpDetail(s)[|IntToString(days)| + 4] == tail[4];
  }

  // ---------------------------------------------------------------- timeline

  /** The heading of day card `i`: its stop's label, followed by an arrow
      and the next stop's city when there is a next stop. */
  function TimelineHeading(stops: seq<MockApi.Stop>, i: nat): (h: string)
    requires i < |stops|
    ensures |h| >= |DayLabel(i, stops[i].city)| && h[..|DayLabel(i, stops[i].city)|] == DayLabel(i, stops[i].city)
    ensures i + 1 == |stops| ==> h == DayLabel(i, stops[i].city)
    ensures i + 1 < |stops| ==>
      |h| >= |stops[i + 1].city| && h[|h| - |stops[i + 1].city|..] == stops[i + 1].city
  {
    DayLabel(i, stops[i].city) + (if i + 1 < |stops| then " → " + stops[i + 1].city else "")
  }

  /** Every heading begins with the quick-jump label of the same stop and
      carries the same day number; the last heading is that label exactly. */
  lemma TimelineAgreesWithQuickJump(stops: seq<MockApi.Stop>, i: nat)
    requires i < |stops|
    ensures QuickJump(Some(stops)).Some?
    ensures var caption := QuickJump(Some(stops)).value[i].caption;
      |caption| <= |TimelineHeading(stops, i)| && TimelineHeading(stops, i)[..|caption|] == caption
    ensures i + 1 == |stops| ==> TimelineHeading(stops, i) == QuickJump(Some(stops)).value[i].caption
    ensures ParseInt(TimelineHeading(stops, i)[4..]) == Some(i + 1)
  {
    var tail := if i + 1 < |stops| then " → " + stops[i + 1].city else "";
    DayLabelReadsBack(i, stops[i].city, tail);
    assert (DayLabel(i, stops[i].city) + tail)[..|DayLabel(i, stops[i].city)|] == DayLabel(i, stops[i].city);
    if i + 1 == |stops| {
      assert DayLabel(i, stops[i].city) + tail == DayLabel(i, stops[i].city);
    }
  }

  /** The headings `before` with those of the first `n` cards that have a
      stop rewritten. */
  function Relabelled(s: seq<MockApi.Stop>, before: seq<string>, n: nat): (after: seq<string>)
    ensures |after| == |before|
  {
    seq(|before|, j requires 0 <= j < |before| => if j < n && j < |s| then TimelineHeading(s, j) else before[j])
  }

  /** `updateTimeline`: walk the day cards in order and rewrite the heading
      of each card that has a stop; the cards beyond the last stop keep
      their headings, and with no stops nothing changes. */
  method UpdateTimeline(headings: array<string>, stops: Option<seq<MockApi.Stop>>)
    modifies headings
    ensures var s := if stops.Some? then stops.value else [];
      forall i :: 0 <= i < headings.Length ==>
        headings[i] == if i < |s| then TimelineHeading(s, i) else old(headings[i])
  {
    if stops.None? || |stops.value| == 0 {
      return;
    }
    var s := stops.value;
    ghost var before := headings[..];
    var i := 0;
    while i < headings.Length
      invariant 0 <= i <= headings.Length
      invariant headings[..] == Relabelled(s, before, i)
    {
      if i < |s| {
        headings[i] := TimelineHeading(s, i);
      }
      i := i + 1;
      assert headings[..] == Relabelled(s, before, i);
    }
    assert forall j :: 0 <= j < headings.Length ==> headings[j] == headings[..][j];
  }

  // ---------------------------------------------------------------- budget figure

  /** The ticket price the fallback charges a stop: 5000 for a flight, 400
      for a bus, 800 for anything else, including a missing mode. */
  function TicketCost(s: MockApi.Stop): (c: int)
    ensures c == MockApi.RatesFor(MockApi.ModeOf(s)).travel
  {
    if s.mode == Some("flight") then 5000 else if s.mode == Some("bus") then 400 else 800
  }

  /** The fallback total: per stop, its ticket plus 1500 a day whatever the
      mode, summed in stop order. */
  function FallbackTotal(stops: seq<MockApi.Stop>): (total: int)
    ensures (forall i :: 0 <= i < |stops| ==> MockApi.DaysOf(stops[i]) > 0) ==> total >= 1900 * |stops|
  {
    if stops == [] then 0
    else FallbackTotal(stops[..|stops| - 1]) + TicketCost(stops[|stops| - 1]) + 1500 * MockApi.DaysOf(stops[|stops| - 1])
  }

  /** Away from flights and buses the fallback charges exactly what the mock
      itinerary charges. */
  lemma {:induction false} FallbackMatchesMockOffFlightAndBus(stops: seq<MockApi.Stop>)
    requires forall i :: 0 <= i < |stops| ==> MockApi.ModeOf(stops[i]) != "flight" && MockApi.ModeOf(stops[i]) != "bus"
    ensures FallbackTotal(stops) == MockApi.TotalCost(stops)
  {
    if stops != [] {
      FallbackMatchesMockOffFlightAndBus(stops[..|stops| - 1]);
    }
  }

  /** A flight stay costs the mock 2500 a day but the fallback 1500, so the
      two figures disagree: two days at Goa by air are 8000 here and 10000
      in the mock itinerary. */
  lemma FallbackDiffersForFlights()
    ensures var stops := [MockApi.Stop("Goa", Some("flight"), Some(2))];
      FallbackTotal(stops) == 8000 && MockApi.TotalCost(stops) == 10000
  {
    var stops := [MockApi.Stop("Goa", Some("flight"), Some(2))];
    assert stops[..0] == [];
  }

  /** What the budget figure shows after `getEstimation`. */
  datatype BudgetFigure = Calculating | Amount(value: int)

  /** The outcome of `getEstimation`: the figure, whether the estimate was
      remembered for the budget page, and the success toast. */
  datatype EstimationView = EstimationView(figure: BudgetFigure, remembered: bool, toast: Option<string>)

  /** The value of the last field named `key`, the one `JSON.parse` keeps
      when a key repeats. */
  function FieldValue(fields: seq<(string, Schema.Json)>, key: string): (v: Option<Schema.Json>)
    ensures v.None? <==> forall i :: 0 <= i < |fields| ==> fields[i].0 != key
    ensures v.Some? ==> (key, v.value) in fields
  {
    if fields == [] then None
    else if fields[|fields| - 1].0 == key then Some(fields[|fields| - 1].1)
    else FieldValue(fields[..|fields| - 1], key)
  }

  /** Of several fields named `key`, the last one wins. */
  lemma {:induction false} LastFieldWins(fields: seq<(string, Schema.Json)>, key: string, i: int)
    requires 0 <= i < |fields| && fields[i].0 == key
    requires forall j :: i < j < |fields| ==> fields[j].0 != key
    ensures FieldValue(fields, key) == Some(fields[i].1)
  {
    if i < |fields| - 1 {
      LastFieldWins(fields[..|fields| - 1], key, i);
    }
  }

  /** `estimate.totalEstimatedCost` of a server answer, when it is a number. */
  function ServerTotal(json: Schema.Json): (total: Option<int>)
    ensures total.Some? <==> (json.JObject? && FieldValue(json.fields, "totalEstimatedCost").Some? &&
      FieldValue(json.fields, "totalEstimatedCost").value.JNumber?)
    ensures total.Some? ==> FieldValue(json.fields, "totalEstimatedCost") == Some(Schema.JNumber(total.value))
  {
    if json.JObject? then
      var field := FieldValue(json.fields, "totalEstimatedCost");
      if field.Some? && field.value.JNumber? then Some(field.value.n) else None
    else None
  }

  /** The total an `EstimateAPI.full` outcome carries: the mock itinerary's,
      or the server answer's when it has a number there. */
  function OutcomeTotal(full: MockApi.FullOutcome): Option<int> {
    match full
    case MockFull(itinerary) => Some(itinerary.totalEstimatedCost)
    case RemoteFull(json) => ServerTotal(json)
  }

  const EstimatedToast := "Budget estimated successfully!"

  /** `getEstimation` given what `EstimateAPI.full` resolved to. That call
      never rejects: a failed request resolves to the mock itinerary, which
      is shown, remembered and announced like a server answer. Only a
      `null` body, whose `totalEstimatedCost` cannot be read, reaches the
      catch branch, which shows the fallback total of the page's stops,
      5000 when it is 0. Any other answer shows its total when that is a
      non-zero number and otherwise leaves "Calculating..." in place. */
  function GetEstimation(stops: Option<seq<MockApi.Stop>>, full: MockApi.FullOutcome): (v: EstimationView)
    ensures v.remembered <==> full != MockApi.RemoteFull(Schema.JNull)
    ensures v.toast.Some? <==> v.remembered
    ensures v.toast.Some? ==> v.toast.value == EstimatedToast
    ensures v.figure.Amount? ==> v.figure.value != 0
    ensures full.MockFull? ==>
      v.figure == if full.itinerary.totalEstimatedCost != 0 then Amount(full.itinerary.totalEstimatedCost) else Calculating
    ensures full.RemoteFull? && full.json != Schema.JNull ==>
      (v.figure.Amount? <==> ServerTotal(full.json).Some? && ServerTotal(full.json).value != 0) &&
      (v.figure.Amount? ==> Some(v.figure.value) == ServerTotal(full.json))
    ensures full == MockApi.RemoteFull(Schema.JNull) ==>
      v.figure == Amount(NonZeroOrFallback(FallbackTotal(if stops.Some? then stops.value else [])))
  {
    if full == MockApi.RemoteFull(Schema.JNull) then
      var stopList := if stops.Some? then stops.value else [];
      EstimationView(Amount(NonZeroOrFallback(FallbackTotal(stopList))), false, None)
    else
      var total := OutcomeTotal(full);
      EstimationView(if total.Some? && total.value != 0 then Amount(total.value) else Calculating,
        true, Some(EstimatedToast))
  }

  /** A server estimate whose last `totalEstimatedCost` field is a
      non-zero number shows that number, is remembered and is announced. */
  lemma ServerTotalShown(fields: seq<(string, Schema.Json)>, i: int, page: Option<seq<MockApi.Stop>>)
    requires 0 <= i < |fields| && fields[i].0 == "totalEstimatedCost"
    requires forall j :: i < j < |fields| ==> fields[j].0 != "totalEstimatedCost"
    requires fields[i].1.JNumber? && fields[i].1.n != 0
    ensures GetEstimation(page, MockApi.RemoteFull(Schema.JObject(fields)))
         == EstimationView(Amount(fields[i].1.n), true, Some(EstimatedToast))
  {
    LastFieldWins(fields, "totalEstimatedCost", i);
  }

  /** `mockTotal || 5000`. */
  function NonZeroOrFallback(total: int): (shown: int)
    ensures shown != 0
    ensures total != 0 ==> shown == total
  {
    if total != 0 then total else 5000
  }

  /** When the estimation request fails and the trip is refetched with its
      stops, every one of positive length, the page shows the mock
      itinerary's total for those stops, remembers it and announces success. */
  lemma FailedEstimationShowsMockTotal(
    stops: seq<MockApi.Stop>, name: string, error: Schema.Error, page: Option<seq<MockApi.Stop>>)
    requires |stops| > 0
    requires forall i :: 0 <= i < |stops| ==> MockApi.DaysOf(stops[i]) > 0
    ensures var v := GetEstimation(page, MockApi.EstimateFull(Err(error), Ok(MockApi.TripView(name, Some(stops)))));
      v == EstimationView(Amount(MockApi.MockEstimation(stops).totalEstimatedCost), true, Some(EstimatedToast))
  {
    MockApi.TotalCostIsSumOfLegTotals(stops);
    MockCostPositive(stops);
  }

  /** When the estimation request fails and the refetch fails or finds no
      stop list, the mock of no stops totals 0: "Calculating..." stays, yet
      the estimate is remembered and success announced. */
  lemma FailedRefetchLeavesCalculating(
    error: Schema.Error, refetched: Result<MockApi.TripView, Schema.Error>, page: Option<seq<MockApi.Stop>>)
    requires refetched.Err? || refetched.value.stops.None?
    ensures GetEstimation(page, MockApi.EstimateFull(Err(error), refetched))
         == EstimationView(Calculating, true, Some(EstimatedToast))
  {
    var legs := MockApi.EstimateFull(Err(error), refetched).itinerary.legs;
    assert |legs| == 0;
  }

  /** A trip whose stops all last a positive number of days costs the mock
      more than nothing, whatever the modes. */
  lemma {:induction false} MockCostPositive(stops: seq<MockApi.Stop>)
    requires |stops| > 0
    requires forall i :: 0 <= i < |stops| ==> MockApi.DaysOf(stops[i]) > 0
    ensures MockApi.TotalCost(stops) > 0
  {
    if |stops| > 1 {
      MockCostPositive(stops[..|stops| - 1]);
    }
  }
}
