# GlobeTrotter trip planner — a Dafny model

GlobeTrotter is a small trip planner. It has an Express backend with two SQLite tables (trips and their stops) and an AI estimation service that asks the Gemini model for a cost estimate. Its browser front end has four relevant parts:

- a form that creates a trip with its stops;
- an itinerary page;
- a budget page;
- an offline mock estimator, used whenever the estimation endpoints fail.

This project models the logic of those parts and proves what they promise.

- `wrappers.dfy` (`Wrappers`): `Option` and `Result`.
- `schema.dfy` (`Schema`): rows of the `trips` and `stops` tables, JSON values, and JavaScript `Error` objects.
- `jstext.dfy` (`JsText`): the JavaScript primitives the code relies on.
  - `String.prototype.trim`.
  - `parseInt` on decimal text.
  - The decimal rendering of integers in template literals.
  - The `||` defaults.
  - `join` and `split`.
- `gemini.dfy` (`Gemini`): the estimation service.
  - The retry loop with exponential backoff.
  - The cleaning of the model's text before `JSON.parse`.
  - The single-leg and itinerary prompts, with the numbered stop description.
  - The two entry points, which wrap the final error.
- `trip_routes.dfy` (`TripRoutes`): the trip router.
  - Every handler is a method of the class `TripDb`.
  - The class holds the two tables as maps from id to row, each with its AUTOINCREMENT counter.
- `mock_api.dfy` (`MockApi`): the mock estimator of the front end.
  - The price table.
  - The itinerary loop and the single-leg estimate.
  - The fallback choice of `EstimateAPI.single` and `EstimateAPI.full`.
- `create_trip.dfy` (`CreateTrip`): the create-trip page.
  - The stop cards as a class `StopForm` with numbering, adding and deleting.
  - `collectStops` and `getSelectedMode`.
  - The validation and request order of `createTrip`.
- `budget.dfy` (`Budget`): the budget page.
  - The breakdown `updateBudgetPage` computes: sums, the activities remainder, and rounded percentages with their fallbacks.
  - The choice between a stored, a fetched and the default estimate.
- `itinerary.dfy` (`ItineraryPage`): the itinerary page.
  - Trip selection.
  - The duration.
  - The quick-jump entries and the timeline headings.
  - The budget figure `getEstimation` shows for what `EstimateAPI.full` resolves to.

The following are parameters rather than code:

- The model call (`generate(prompt, i)` is the provider's answer to attempt `i`).
- `JSON.parse`.
- The HTTP requests of the front end (their outcomes).
- `JSON.stringify`.

Sleeping is replaced by the list of delays the retrier would wait. `localStorage` entries appear as `Option<string>` inputs and outputs.

Some behaviour follows the code exactly where a looser reading would differ:

- Fence removal:
  - Only the `json` language tag is removed together with its fence. A fence tagged with another language keeps its tag.
  - One newline directly after each fence is dropped.
- Day counts:
  - A day count of `0` counts as one day everywhere `stay_days || 1` is used, just as a missing one does.
  - A negative day count passes through unchanged.
- The itinerary page's fallback budget charges 1500 a day for every mode. The mock estimator charges the mode's own daily rate. `ItineraryPage.FallbackDiffersForFlights` shows the two figures disagreeing.

## Model

| member | source | states |
|---|---|---|
| JsText.Trim | frontend/js/create-trip.js:252 | the trim is the slice of the input left after removing its leading and trailing whitespace runs; it neither starts nor ends with whitespace, and everything cut off is whitespace |
| JsText.TrimIdempotent | frontend/js/create-trip.js:274 | trimming a trimmed string changes nothing |
| JsText.TrimIgnoresTrailingWhitespace | backend/services/gemini.js:58 | whitespace appended to a string does not change its trim |
| JsText.ParseInt | frontend/js/create-trip.js:258 | `parseInt` yields a number exactly when a digit follows the leading whitespace and optional sign |
| JsText.ParseIntOfRendered | frontend/js/create-trip.js:258 | `parseInt` reads back the rendering of any integer when the next character is not a digit |
| JsText.DigitsValueOfNatToString | frontend/js/itinerary.js:90 | the decimal digits of a natural number read back as that number |
| JsText.DaysOrOne | frontend/js/create-trip.js:258 | `parseInt(v) \|\| 1` is never 0: a non-zero parsed number is kept, NaN gives 1, and a parsed 0 gives 1 |
| JsText.DaysOrOneOfRendered | frontend/js/create-trip.js:258 | a typed day count `n` reads back as `n`, negative values included, except that 0 becomes 1 |
| JsText.IntOr | backend/routes/trip.js:126 | `x \|\| d` for a number: a missing value or 0 gives `d`, any other value is kept, and with a non-zero default the result is never 0 |
| JsText.StringOr | backend/routes/trip.js:126 | `x \|\| d` for a string: a missing or empty string gives `d`, any other is kept, and with a non-empty default the result is never empty |
| JsText.SplitJoin | backend/services/gemini.js:76-78 | splitting a newline-joined list of lines without newlines gives the lines back |
| Gemini.RetryWithBackoff | backend/services/gemini.js:9-24 | at most `maxRetries` calls; success returns the first successful call's value, every earlier call having failed; failure means all `maxRetries` calls failed and the last error is passed on unchanged (nothing when no call ran); the delays are `initialDelay * 2^i` after each failed call except the last |
| Gemini.BackoffAt | backend/services/gemini.js:17 | delay `i` is `initialDelay * 2^i` |
| Gemini.TotalBackoff | backend/services/gemini.js:16-19 | `n` delays add up to `initialDelay * (2^n - 1)` |
| Gemini.StripMarker | backend/services/gemini.js:56-57 | the global replace never lengthens the text and leaves text without the marker's first character unchanged |
| Gemini.StripMarkerAfterPlain | backend/services/gemini.js:56-57 | a prefix free of the marker's first character passes through the replace unchanged |
| Gemini.CleanResponse | backend/services/gemini.js:52-58 | the cleaned text neither starts nor ends with whitespace |
| Gemini.CleanResponseOfPlainText | backend/services/gemini.js:52-58 | a response with no backtick is only trimmed |
| Gemini.CleanResponseOfJsonFence | backend/services/gemini.js:52-58 | a response trimming to "```json\n" + B + "\n```", with no backtick in B, cleans to trim(B) |
| Gemini.CleanResponseOfBareFence | backend/services/gemini.js:52-58 | a response trimming to "```\n" + B + "\n```", with no backtick in B, cleans to trim(B) |
| Gemini.StripRepeatedMarker | backend/services/gemini.js:56-57 | a global replace removes every leading copy of its marker, each with the newline after it |
| Gemini.StripMarkerAndRepeats | backend/services/gemini.js:57 | a global replace removes its marker followed by any number of newline-marker pairs, leaving nothing |
| Gemini.JsonFencedFlat | backend/services/gemini.js:56-57 | `k` nested "```json" fences around a body are `k` openers, the body and `k` closers in a row |
| Gemini.JsonPassKeepsClosers | backend/services/gemini.js:56 | the "```json" replace leaves any number of closing fences untouched |
| Gemini.JsonPassOnNested | backend/services/gemini.js:56 | the "```json" replace on nested fences leaves the body and the closers |
| Gemini.BarePassOnNested | backend/services/gemini.js:57 | the "```" replace then leaves the body and one newline |
| Gemini.CleanResponseOfNestedJsonFences | backend/services/gemini.js:52-58 | a body with no backtick inside any number (zero included) of nested "```json" fences cleans to its trim |
| Gemini.GenerateResponse | backend/services/gemini.js:50-61 | an attempt fails with the provider's error, or parses the cleaned text of the provider's answer; the two lemmas below say what that text is |
| Gemini.GenerateResponseOfJsonFence | backend/services/gemini.js:50-61 | an answer trimming to "```json\n" + B + "\n```", with no backtick in B, yields `JSON.parse(trim(B))` |
| Gemini.GenerateResponseOfPlainText | backend/services/gemini.js:50-61 | an answer with no backtick yields `JSON.parse` of its trim |
| Gemini.LegPrompt | backend/services/gemini.js:33-36 | the prompt contains the lines "From: …", "To: …", "Transport Mode: …" and "Stay Duration: … days", each with the request's field verbatim |
| Gemini.SingleLegPrompt | backend/services/gemini.js:30-48 | the single-leg prompt embeds origin, destination, mode and days verbatim, each on its own line |
| Gemini.StopLine | backend/services/gemini.js:77 | the line of stop `i` starts with the number `i + 1`, and has no newline unless the city or mode has one |
| Gemini.StopLines | backend/services/gemini.js:76-77 | one line per stop, in stop order |
| Gemini.StopsDescriptionLines | backend/services/gemini.js:76-78 | the description splits on newlines into exactly one line per stop, in order, line `i` numbered `i + 1` |
| Gemini.TripPrompt | backend/services/gemini.js:80-89 | the prompt contains "Trip Name: …", the description after "Itinerary:", and the trip name in the JSON shape |
| Gemini.ItineraryPrompt | backend/services/gemini.js:80-107 | the itinerary prompt names the trip, lists the stop description after "Itinerary:", and repeats the name in the requested shape |
| Gemini.EstimateWith | backend/services/gemini.js:63-68 | one to three attempts 2000 then 4000 ms apart; success is the first successful attempt; failure means all three failed and carries the prefix plus the third error's message |
| Gemini.EstimateTrip | backend/services/gemini.js:63-68 | as `EstimateWith` for the single-leg prompt: every attempt before the returned one failed, and the final error is prefixed "Failed to get AI estimation: " |
| Gemini.EstimateItinerary | backend/services/gemini.js:121-126 | as `EstimateWith` for the itinerary prompt: every attempt before the returned one failed, and the final error is prefixed "Failed to get AI estimation for itinerary: " |
| TripRoutes.DateOrNull | backend/routes/trip.js:21 | a date is stored exactly when it is present and non-empty, and then as given; an empty date is never stored |
| TripRoutes.TripsBelow | backend/routes/trip.js:39 | the listed rows are exactly the stored trips, each once, in descending id order |
| TripRoutes.StopsOf | backend/routes/trip.js:56-58 | the listed rows are exactly the trip's stored stops, in ascending id order |
| TripRoutes.AscendingUnique | backend/routes/trip.js:56-58 | two id-ordered lists with the same rows are equal, so `ORDER BY id` fixes the list |
| TripRoutes.StopsOfAfterInsert | backend/routes/trip.js:123-126 | a stop inserted under the next id comes after every earlier stop of its trip |
| TripRoutes.TripDb.constructor | backend/db/database.js:16-39 | a new database has empty tables and satisfies the store invariant |
| TripRoutes.TripDb.CreateTrip | backend/routes/trip.js:10-34 | no truthy name: 400 and nothing inserted; otherwise one row under a fresh id, missing dates stored as NULL, 201 echoing the dates as sent |
| TripRoutes.TripDb.ListTrips | backend/routes/trip.js:37-45 | 200 with every stored trip exactly once, newest id first |
| TripRoutes.TripDb.TripStops | backend/routes/trip.js:56-58 | exactly the stops of the trip, in id order |
| TripRoutes.TripDb.GetTrip | backend/routes/trip.js:48-65 | 404 exactly when the trip is missing; otherwise the trip with exactly its stops in id order |
| TripRoutes.TripDb.UpdateTrip | backend/routes/trip.js:68-85 | 404 exactly when no row exists; a missing name violates NOT NULL (500, no change); otherwise name and both dates are overwritten |
| TripRoutes.TripDb.DeleteTrip | backend/routes/trip.js:88-103 | the trip's stops and then the trip are removed; 404 exactly when no trip row existed |
| TripRoutes.TripDb.AddStop | backend/routes/trip.js:108-140 | 404 for a missing trip before 400 for a missing city, with the stops unchanged; otherwise one stop under a fresh id with mode `\|\| "train"` and days `\|\| 1`, echoed in the 201 body |
| TripRoutes.TripDb.DeleteStop | backend/routes/trip.js:143-158 | a stop is removed only when both ids match; otherwise 404 and nothing changes |
| TripRoutes.TripDb.EstimateAll | backend/routes/trip.js:174-199 | 404 for a missing trip and 400 for a trip without stops, both with no model call; an existing trip with stops gets 200 or 500; 200 carries the itinerary estimate of the trip's name and stops in id order, every earlier attempt having failed; 500 only when all three attempts failed |
| TripRoutes.EstimateLeg | backend/routes/trip.js:163-171 | 200 with the single-leg estimate of the first successful attempt, every earlier one having failed; 500 only when all three attempts failed, with the wrapped last error as details |
| MockApi.ModeOf | frontend/js/api.js:72 | the mode used is never empty |
| MockApi.DaysOf | frontend/js/api.js:73 | the day count used is never 0 |
| MockApi.MockLegs | frontend/js/api.js:71-91 | one leg per stop in order; leg 0 leaves from "Starting Point" and leg i from leg i-1's destination; each leg's travel time and costs come from its mode, and legTotal is travel plus stay |
| MockApi.GetMockEstimation | frontend/js/api.js:61-105 | the loop produces the mock itinerary: its legs, the running total and the day total |
| MockApi.MockLoopStep | frontend/js/api.js:76-90 | one turn of the loop pushes leg `index` and adds its total |
| MockApi.MockLegsOfPrefix | frontend/js/api.js:71-91 | the legs of a prefix of the stops are a prefix of the legs |
| MockApi.TotalCostIsSumOfLegTotals | frontend/js/api.js:76-96 | totalEstimatedCost is the sum of the legs' legTotal |
| MockApi.TotalDaysIsSumOfLegDays | frontend/js/api.js:73-95 | totalDays is the sum of the legs' day counts, so a missing or 0 stay counts one day, as in the stay cost |
| MockApi.SumLegTotalsSplits | frontend/js/api.js:76-78 | the sum of leg totals is the sum of travel costs plus the sum of stay costs |
| MockApi.MockTotalIsTravelPlusStay | frontend/js/api.js:76-96 | the mock total is exactly its travel plus its stay costs |
| MockApi.MockEstimationAppend | frontend/js/api.js:71-91 | appending a stop keeps the old legs, adds one leg from the previous last city, and adds the stop's cost and days to the totals |
| MockApi.UnknownModePricedAsTrain | frontend/js/api.js:72-86 | a mode outside the table is kept in the leg, priced 800 + 1500 a day, and takes "8h" |
| MockApi.EmptyEstimation | frontend/js/api.js:93-97 | no stops: no legs, 0 days, 0 cost, "Your Trip" |
| MockApi.MumbaiGoaExample | frontend/js/api.js:62-96 | Mumbai by flight for 2 days then Goa by train for 3 gives legs of 10000 and 5300, 15300 in all, 5 days |
| MockApi.MockSingleEstimate | frontend/js/api.js:107-132 | ticket is the travel rate, daily stay the day rate, total stay the day rate times days, total cost ticket plus stay |
| MockApi.SingleAgreesWithLeg | frontend/js/api.js:114-124 | the single-leg mock prices a stop as the itinerary mock prices its leg; the travel times differ exactly for flights |
| MockApi.EstimateSingle | frontend/js/api.js:137-147 | the server's answer when the request succeeds, else exactly the single-leg mock of the same request, costing the mode's ticket plus its day rate times the days |
| MockApi.EstimateFull | frontend/js/api.js:150-167 | the server's answer when it succeeds; else the mock of the refetched trip's stops (legs, totals, summary and tips) under the trip's name; else the mock of no stops, named "Your Trip" |
| CreateTrip.GetSelectedMode | frontend/js/create-trip.js:233-242 | the mode read is always flight, train or bus |
| CreateTrip.SelectedModeRoundTrip | frontend/js/create-trip.js:233-242 | each mode's icon reads back as that mode; any other icon or none reads as train |
| CreateTrip.Renumber | frontend/js/create-trip.js:116-131 | card `i` gets badge and title `i + 1`; the inputs and the selected mode are kept |
| CreateTrip.RenumberNumbered | frontend/js/create-trip.js:116-131 | renumbering numbered cards changes nothing |
| CreateTrip.BadgeReadsBack | frontend/js/create-trip.js:120 | a card's badge reads back as its position plus one |
| CreateTrip.Drafts | frontend/js/create-trip.js:245-264 | no more stops than cards; every stop has a non-empty city and a non-zero day count |
| CreateTrip.DraftsAppend | frontend/js/create-trip.js:249-261 | reading two runs of cards in turn is reading them together, so stops keep the card order |
| CreateTrip.DraftsOfOne | frontend/js/create-trip.js:252-260 | a card yields a stop exactly when its trimmed city is non-empty |
| CreateTrip.StopForm.UpdateStopNumbers | frontend/js/create-trip.js:113-138 | card `i` shows `i + 1` in badge and title, the counter reads "<n> stops added", and nothing else changes |
| CreateTrip.StopForm.AddNewStop | frontend/js/create-trip.js:141-230 | a blank card numbered count + 1, with train preselected, is added after the existing cards; the others keep their inputs |
| CreateTrip.StopForm.DeleteStop | frontend/js/create-trip.js:92-110 | with at most one card, a warning and no change; otherwise the card is removed and the rest renumbered |
| CreateTrip.CollectStops | frontend/js/create-trip.js:245-264 | the loop returns the drafts of the filled cards in card order |
| CreateTrip.DeleteKeepsOneCard | frontend/js/create-trip.js:95-98 | a delete from more than one card leaves at least one |
| CreateTrip.DateValue | frontend/js/create-trip.js:275-276 | a date input is sent as null exactly when empty, and otherwise as typed, so an empty date is never sent |
| CreateTrip.SentDateStoredAsSent | backend/routes/trip.js:21 | a date the form sends is stored unchanged by the server, and NULL exactly when the input was empty |
| CreateTrip.AddCalls | frontend/js/create-trip.js:301-304 | one add request per stop, in order, with its city, mode and days |
| CreateTrip.Validate | frontend/js/create-trip.js:280-289 | the name is checked first, then that a stop exists; no refusal exactly when both hold |
| CreateTrip.SubmitTrip | frontend/js/create-trip.js:267-320 | a refused form makes no request; otherwise the create request goes first; after a successful create, the stops are added in order until the first failure, and the trip counts as created exactly when every add succeeded |
| CreateTrip.AddPhaseOfAddStops | frontend/js/create-trip.js:301-317 | the outcome after the add loop is "created" exactly when every add succeeded, else the error of the failed add |
| CreateTrip.AddStops | frontend/js/create-trip.js:301-304 | the requests go out in stop order up to and including the first failure; no failure exactly when every add succeeded |
| Budget.FloorDiv | frontend/js/budget.js:86-87 | the quotient is the floor of `a / b` for a divisor of either sign |
| Budget.RoundPercentBounds | frontend/js/budget.js:86-87 | the rounded percentage is within one half of `100 * part / total`, halves rounded up |
| Budget.RoundPercentOfShare | frontend/js/budget.js:86-87 | a share of a positive total rounds to a percentage in [0, 100] |
| Budget.BudgetView | frontend/js/budget.js:67-88 | the total is shown exactly when truthy; travel and stay are shown, or 2500 and 3000 when 0; activities are the total less travel and stay when that is positive, else 1200; the travel and stay percentages are the rounded shares of the total (6700 when absent), or 37 and 45 when they round to 0; the three sum to 100 |
| Budget.PercentagesRoundTheShares | frontend/js/budget.js:85-87 | a travel percentage other than 37, or a stay percentage other than 45, lies within one half of the exact share of the total, halves rounded up |
| Budget.UpdateBudgetPage | frontend/js/budget.js:47-100 | the one-pass loop over the legs yields the breakdown of the estimate, whose percentages sum to 100 |
| Budget.SharePercentagesInRange | frontend/js/budget.js:85-88 | when travel and stay are shares of a positive total, their percentages lie in [1, 100] and activities in [-100, 98] |
| Budget.DefaultBreakdown | frontend/js/budget.js:36-43 | the default estimate shows 2500, 3000, 1200 and 37 / 45 / 18 percent |
| Budget.ActivitiesShareCanBeNegative | frontend/js/budget.js:88 | a total of 100 with 60 travel and 60 stay gives activities -20 percent |
| Budget.SumsOfItinerary | frontend/js/budget.js:57-65 | the page's sums over a mock itinerary's legs equal the itinerary's travel and stay sums |
| Budget.SplitItineraryShowsPlaceholderActivities | frontend/js/budget.js:67-81 | a total of exactly travel plus stay shows the 1200 activities placeholder |
| Budget.MockItineraryShowsPlaceholderActivities | frontend/js/budget.js:67-81 | every mock itinerary shows the 1200 activities placeholder |
| Budget.LoadBudgetPage | frontend/js/budget.js:4-45 | a parsed stored estimate wins; otherwise, when a trip id exists and the trip fetch succeeds, the answer of `EstimateAPI.full` is stored ("null" for a null body) and shown unless it is null; otherwise the default; the toast shows exactly when the estimate was not the default |
| ItineraryPage.SelectTrip | frontend/js/itinerary.js:8-19 | a truthy URL id overrides and replaces the stored id; with no id at all, a redirect and nothing loaded |
| ItineraryPage.LoadedTripIsRemembered | frontend/js/itinerary.js:10-13 | the loaded trip id is the one remembered afterwards |
| ItineraryPage.DurationText | frontend/js/itinerary.js:81-91 | a duration is written exactly when the trip has a stop list |
| ItineraryPage.DurationReadsBack | frontend/js/itinerary.js:84-90 | the duration's number is the sum of `stay_days \|\| 1`, the mock itinerary's totalDays |
| ItineraryPage.AtLeastOneDayPerStop | frontend/js/itinerary.js:84 | with no negative day count, the total is at least the number of stops |
| ItineraryPage.DayLabel | frontend/js/itinerary.js:108 | a label begins with "Day " |
| ItineraryPage.DayLabelReadsBack | frontend/js/itinerary.js:108 | the number after "Day " reads back as the position plus one |
| ItineraryPage.JumpDetail | frontend/js/itinerary.js:109 | an entry's detail ends with " • " and the stop's mode, a missing one read as train |
| ItineraryPage.QuickJump | frontend/js/itinerary.js:100-113 | entries exist exactly for a non-empty stop list, one per stop, captioned "Day i+1: city", with the stop's "N day(s) • mode" detail, only the first checked |
| ItineraryPage.JumpDetailReadsBack | frontend/js/itinerary.js:109 | the sub-label starts with the non-zero day count and says "days" exactly when it is above one |
| ItineraryPage.TimelineHeading | frontend/js/itinerary.js:132-136 | a heading starts with the stop's "Day i+1: city" label; it is that label for the last stop and otherwise ends with the next stop's city |
| ItineraryPage.TimelineAgreesWithQuickJump | frontend/js/itinerary.js:125-137 | each heading starts with the stop's quick-jump caption, and the last heading equals it |
| ItineraryPage.UpdateTimeline | frontend/js/itinerary.js:115-140 | cards with a stop get "Day i+1: city", followed by " → next" when a next stop exists; later cards and a stop-less trip keep their headings |
| ItineraryPage.FallbackTotal | frontend/js/itinerary.js:169-173 | when every stop lasts a positive number of days, the fallback charges at least 1900 per stop (the cheapest ticket, 400, plus 1500 a day) |
| ItineraryPage.TicketCost | frontend/js/itinerary.js:170 | the fallback's ticket price is the mock's travel rate for the stop's mode |
| ItineraryPage.FallbackMatchesMockOffFlightAndBus | frontend/js/itinerary.js:169-173 | without flights or buses, the fallback total equals the mock total |
| ItineraryPage.FallbackDiffersForFlights | frontend/js/itinerary.js:169-173 | Goa by flight for 2 days: fallback 8000, mock 10000 |
| ItineraryPage.FieldValue | frontend/js/itinerary.js:157 | a field value is found exactly when the object has a field of that name, and it is one of that name's values |
| ItineraryPage.LastFieldWins | frontend/js/itinerary.js:157 | of several fields with the same name, the last one's value is read |
| ItineraryPage.ServerTotal | frontend/js/itinerary.js:157-158 | a server total exists exactly when the answer is an object whose (last) `totalEstimatedCost` is a number, and it is that number |
| ItineraryPage.GetEstimation | frontend/js/itinerary.js:142-177 | every answer of `EstimateAPI.full` but a null body is remembered and announced with the success toast; a mock itinerary or a server answer shows its total when it is a non-zero number and otherwise keeps "Calculating..."; only a null body reaches the catch branch, which shows the fallback total of the page's stops, or 5000 when it is 0 |
| ItineraryPage.ServerTotalShown | frontend/js/itinerary.js:153-164 | a server answer whose last `totalEstimatedCost` is a non-zero number shows it, remembered and announced |
| ItineraryPage.NonZeroOrFallback | frontend/js/itinerary.js:174 | the figure is never 0, and a non-zero total is kept |
| ItineraryPage.FailedEstimationShowsMockTotal | frontend/js/api.js:150-163 | a failed estimation request, with the trip refetched, shows the mock itinerary's total of the refetched stops, remembers it and announces success |
| ItineraryPage.FailedRefetchLeavesCalculating | frontend/js/api.js:160-165 | a failed estimation request whose refetch fails or finds no stop list leaves "Calculating..." while still remembering the estimate and announcing success |
| ItineraryPage.MockCostPositive | frontend/js/api.js:76-90 | stops all lasting a positive number of days cost the mock more than 0, whatever the modes |

## Left out

- The Gemini SDK, `JSON.parse`, `JSON.stringify`, `fetch` and `apiRequest` are foreign calls. They appear as parameters, or as their outcomes.
- `setTimeout` sleeping and the event loop: the attempts are sequential and their delays are returned as a list.
- SQLite itself:
  - Tables are maps.
  - The only database error modelled is the NOT NULL violation of an update without a name.
  - The `created_at` column is not modelled; nor are `estimated_cost` and `estimated_time`, which the routes never write.
- Path parameters are integers. A non-numeric id (which SQLite would compare as text) is not modelled.
- Request bodies are typed:
  - names, cities and modes are strings or missing;
  - day counts are integers or missing.
  - Other JSON types in those fields are not modelled.
- JSON numbers are integers. The budget percentages are exact rational arithmetic rounded half up, not IEEE floating point.
- `parseInt` handles decimal text only. A "0x" prefix is not modelled, since number inputs never produce one.
- A mode naming an `Object.prototype` member (such as "toString") makes `baseCosts[mode]` a function, not a rate, and yields NaN. This is not modelled: such a mode is priced as train here.
- DOM details:
  - styling, class toggling, animations, loading spinners, confirm dialogs and navigation are not modelled;
  - the icon markup in card titles and timeline headings is reduced to the text;
  - cards without a badge, title or heading element are not modelled;
  - `addNewStop`'s early return when the add-button row is missing is not modelled.
- Toasts are modelled as their message and kind only where an operation's outcome is the toast. Elsewhere they are not modelled.
- `formatCurrency` and `formatDate` (Intl locale formatting) are not modelled. Budget figures are numbers, and `updateDateRange` (`toLocaleDateString`) is not modelled.
- `updateStats` also writes a fixed "2 Travelers" text. Page titles and the "Loaded" toast are not modelled either.
- The Edit and Back-to-Dashboard button handlers on the itinerary page are not modelled.
- `frontend/js/dashboard.js`, `backend/server.js` and `backend/test-gemini.js` are not part of this model.
- Contracts stated differently from the source:
  - TripRoutes.TripDb.ListTrips: orders by id, newest first, instead of by the `created_at` timestamp, which comes from the clock. `created_at` is `CURRENT_TIMESTAMP`, with a resolution of one second, so the two orders agree when trips are created at least a second apart. Trips created within the same second come in an unspecified order.
  - ItineraryPage.GetEstimation: the remembered estimate is recorded as a flag, not as the JSON text. A `totalEstimatedCost` that is truthy but not a number (a string, say) is treated as absent, so "Calculating..." stays instead of a formatted text. A `localStorage.setItem` that throws, which would also reach the catch branch, is not modelled. The case where the budget element is missing is not modelled.
  - CreateTrip.StopForm.DeleteStop: removes the card at once. The source checks "more than one card" at click time but removes the card 300 ms later in a `setTimeout`. So two quick deletes on a two-card form both pass the check, and both cards are removed. Pending removals are not modelled.
  - CreateTrip.DeleteKeepsOneCard: holds only for deletes that run one after another. Under the deferred removal described for `DeleteStop`, two deletes clicked within 300 ms can leave no card.
  - Budget.LoadBudgetPage: the trip fetch and `EstimateAPI.full` are given as outcomes. `EstimateAPI.full` never fails, since it falls back to a mock. Its answer is either an estimate or a null body; other JSON values are not modelled.
