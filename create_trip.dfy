/** The create-trip page: the list of stop cards with its numbering, adding
    and deleting cards, reading the form into stops, and submitting the
    trip followed by its stops. A card is abstracted to the values the
    script reads or writes: the city and days inputs, the icon of the
    selected mode button, the number badge and the title. */
module CreateTrip {
  import opened Wrappers
  import opened JsText
  import opened Schema
  import TripRoutes

  /** One stop card. `selectedIcon` is the icon text of the highlighted
      mode button, `None` when no button is highlighted. */
  datatype Card = Card(cityText: string, daysText: string, selectedIcon: Option<string>, badge: string, title: string)

  /** A stop read from the form. */
  datatype StopDraft = StopDraft(city: string, mode: string, stayDays: int)

  /** A toast message and its kind ("success", "error" or "warning"). */
  datatype Toast = Toast(message: string, kind: string)

  // ---------------------------------------------------------------- modes

  /** `getSelectedMode`: the highlighted button's icon names the mode; any
      other icon, or no highlighted button, means train. */
  function GetSelectedMode(icon: Option<string>): (mode: string)
    ensures mode == "flight" || mode == "train" || mode == "bus"
  {
    if icon == Some("flight") then "flight"
    else if icon == Some("train") then "train"
    else if icon == Some("directions_bus") then "bus"
    else "train"
  }

  /** The icon shown on the button of each mode. */
  function ModeIcon(mode: string): string {
    if mode == "bus" then "directions_bus" else mode
  }

  /** Selecting a mode's button and reading it back gives that mode; any
      other icon reads as train. */
  lemma SelectedModeRoundTrip(mode: string, icon: Option<string>)
    ensures mode == "flight" || mode == "train" || mode == "bus" ==> GetSelectedMode(Some(ModeIcon(mode))) == mode
    ensures icon != Some("flight") && icon != Some("train") && icon != Some("directions_bus") ==>
      GetSelectedMode(icon) == "train"
  {
  }

  // ---------------------------------------------------------------- numbering

  /** The badge and title of the card at position `i`. */
  function Badge(i: nat): string {
    IntToString(i + 1)
  }

  function Title(i: nat): string {
    "Stop " + IntToString(i + 1)
  }

  /** Card `i` shows number `i + 1` in its badge and its title. */
  ghost predicate Numbered(cards: seq<Card>) {
    forall i :: 0 <= i < |cards| ==> cards[i].badge == Badge(i) && cards[i].title == Title(i)
  }

  /** The cards with their numbers rewritten by position. */
  function Renumber(cards: seq<Card>): (r: seq<Card>)
    ensures |r| == |cards|
    ensures Numbered(r)
    ensures forall i :: 0 <= i < |r| ==>
      r[i].cityText == cards[i].cityText && r[i].daysText == cards[i].daysText &&
      r[i].selectedIcon == cards[i].selectedIcon
  {
    seq(|cards|, i requires 0 <= i < |cards| => cards[i].(badge := Badge(i), title := Title(i)))
  }

  /** Renumbering numbered cards changes nothing. */
  lemma RenumberNumbered(cards: seq<Card>)
    requires Numbered(cards)
    ensures Renumber(cards) == cards
  {
  }

  /** A badge reads back as its position plus one. */
  lemma BadgeReadsBack(i: nat)
    ensures ParseInt(Badge(i)) == Some(i + 1)
  {
    ParseIntOfRendered(i + 1, "");
    assert IntToString(i + 1) + "" == IntToString(i + 1);
  }

  /** A fresh card: empty city, two days, train preselected. */
  function BlankCard(number: nat): Card {
    Card("", "2", Some("train"), IntToString(number), "Stop " + IntToString(number))
  }

  /** The counter line under the list. */
  function CounterText(n: nat): string {
    IntToString(n) + " stops added"
  }

  // ---------------------------------------------------------------- reading the form

  /** The stop a card contributes: trimmed city, selected mode, and
      `parseInt(days) || 1`. */
  function DraftOf(card: Card): StopDraft {
    StopDraft(Trim(card.cityText), GetSelectedMode(card.selectedIcon), DaysOrOne(card.daysText))
  }

  /** A card counts when its trimmed city is not empty. */
  predicate Filled(card: Card) {
    Trim(card.cityText) != ""
  }

  /** The stops `collectStops` returns: the drafts of the filled cards, in
      card order. */
  function Drafts(cards: seq<Card>): (r: seq<StopDraft>)
    ensures |r| <= |cards|
    ensures forall d :: d in r ==> d.city != "" && d.stayDays != 0
  {
    if cards == [] then []
    else
      var rest := Drafts(cards[..|cards| - 1]);
      var last := cards[|cards| - 1];
      if Filled(last) then rest + [DraftOf(last)] else rest
  }

  /** Reading two runs of cards one after the other is reading them
      together. */
  lemma {:induction false} DraftsAppend(a: seq<Card>, b: seq<Card>)
    ensures Drafts(a + b) == Drafts(a) + Drafts(b)
    decreases |b|
  {
    if b == [] {
      assert a + b == a;
    } else {
      var n := |b| - 1;
      assert (a + b)[..|a + b| - 1] == a + b[..n];
      assert (a + b)[|a + b| - 1] == b[n];
      DraftsAppend(a, b[..n]);
    }
  }

  /** A card contributes a stop exactly when its city is filled. */
  lemma DraftsOfOne(card: Card)
    ensures Drafts([card]) == if Filled(card) then [DraftOf(card)] else []
  {
    assert [card][..0] == [];
  }

  // ---------------------------------------------------------------- the card list

  /** The stop cards of the page and the counter under them. */
  class StopForm {
    var cards: seq<Card>
    var counter: string

    constructor (initial: seq<Card>, counterText: string)
      ensures cards == initial && counter == counterText
    {
      cards := initial;
      counter := counterText;
    }

    /** `updateStopNumbers`: card `i` gets badge and title `i + 1`, and the
        counter shows the number of cards. */
    method UpdateStopNumbers()
      modifies this
      ensures cards == Renumber(old(cards))
      ensures Numbered(cards)
      ensures counter == CounterText(|cards|)
    {
      var index := 0;
      while index < |cards|
        invariant 0 <= index <= |cards| && |cards| == |old(cards)|
        invariant cards[..index] == Renumber(old(cards))[..index]
        invariant cards[index..] == old(cards)[index..]
      {
        cards := cards[index := cards[index].(badge := Badge(index), title := Title(index))];
        index := index + 1;
      }
      assert cards == cards[..index];
      counter := CounterText(|cards|);
    }

    /** `addNewStop`: a blank card numbered `count + 1` goes after the
        existing cards, and the list is renumbered. */
    method AddNewStop()
      modifies this
      ensures cards == Renumber(old(cards) + [BlankCard(|old(cards)| + 1)])
      ensures |cards| == |old(cards)| + 1
      ensures cards[|cards| - 1] == BlankCard(|cards|)
      ensures forall i :: 0 <= i < |old(cards)| ==>
        cards[i].cityText == old(cards)[i].cityText && cards[i].daysText == old(cards)[i].daysText &&
        cards[i].selectedIcon == old(cards)[i].selectedIcon
      ensures counter == CounterText(|cards|)
    {
      var stopCount := |cards| + 1;
      cards := cards + [BlankCard(stopCount)];
      UpdateStopNumbers();
    }

    /** `deleteStop`: the last remaining card is never removed (a warning
        is shown instead); otherwise card `k` goes and the rest are
        renumbered. */
    method DeleteStop(k: nat) returns (toast: Toast)
      requires k < |cards|
      modifies this
      ensures |old(cards)| <= 1 ==>
        cards == old(cards) && counter == old(counter) && toast == Toast("Cannot delete the last stop!", "warning")
      ensures |old(cards)| > 1 ==>
        cards == Renumber(old(cards)[..k] + old(cards)[k + 1..]) &&
        counter == CounterText(|cards|) && toast == Toast("Stop removed", "success")
      ensures |old(cards)| > 1 ==> |cards| == |old(cards)| - 1 && |cards| >= 1
    {
      if |cards| <= 1 {
        return Toast("Cannot delete the last stop!", "warning");
      }
      cards := cards[..k] + cards[k + 1..];
      UpdateStopNumbers();
      toast := Toast("Stop removed", "success");
    }
  }

  /** `collectStops`: walk the cards on the page, keeping a stop for each
      filled city. */
  method CollectStops(cards: seq<Card>) returns (stops: seq<StopDraft>)
    ensures stops == Drafts(cards)
  {
    stops := [];
    var index := 0;
    while index < |cards|
      invariant 0 <= index <= |cards|
      invariant stops == Drafts(cards[..index])
    {
      var card := cards[index];
      var city := Trim(card.cityText);
      if city != "" {
        stops := stops + [StopDraft(city, GetSelectedMode(card.selectedIcon), DaysOrOne(card.daysText))];
      }
      assert cards[..index + 1][..index] == cards[..index];
      index := index + 1;
    }
    assert cards[..index] == cards;
  }

  /** A form with at least one card keeps at least one through any delete. */
  lemma DeleteKeepsOneCard(cards: seq<Card>, k: nat)
    requires 1 < |cards| && k < |cards|
    ensures |Renumber(cards[..k] + cards[k + 1..])| == |cards| - 1 >= 1
  {
  }

  // ---------------------------------------------------------------- submitting

  /** A request the page sends to the backend. */
  datatype ApiCall =
    | CreateTripCall(name: string, startDate: Option<string>, endDate: Option<string>)
    | AddStopCall(tripId: int, city: string, mode: string, stayDays: int)

  /** How `createTrip` ends: refused before any request, failed with an
      error toast, or created (the trip id is then stored as the current
      trip). */
  datatype SubmitOutcome =
    | Rejected(toast: Toast)
    | Failed(toast: Toast)
    | Created(tripId: int, toast: Toast)

  /** `value || null` for a date input: the typed date, never an empty
      one. */
  function DateValue(text: string): (r: Option<string>)
    ensures r.None? <==> text == ""
    ensures r.Some? ==> r.value == text
    ensures r != Some("")
  {
    if text == "" then None else Some(text)
  }

  /** A date the form sends is stored by POST /trip exactly as sent: the
      typed date, or NULL for an empty field. */
  lemma SentDateStoredAsSent(text: string)
    ensures TripRoutes.DateOrNull(DateValue(text)) == DateValue(text)
    ensures TripRoutes.DateOrNull(DateValue(text)).None? <==> text == ""
  {
  }

  /** The `StopAPI.add` requests for `stops`, in order. */
  function AddCalls(tripId: int, stops: seq<StopDraft>): (calls: seq<ApiCall>)
    ensures |calls| == |stops|
    ensures forall i :: 0 <= i < |calls| ==>
      calls[i] == AddStopCall(tripId, stops[i].city, stops[i].mode, stops[i].stayDays)
  {
    seq(|stops|, i requires 0 <= i < |stops| => AddStopCall(tripId, stops[i].city, stops[i].mode, stops[i].stayDays))
  }

  /** The validation of `createTrip`: the trimmed name is checked first,
      then that at least one stop was collected. */
  function Validate(name: string, stops: seq<StopDraft>): (refusal: Option<Toast>)
    ensures refusal.None? <==> name != "" && stops != []
    ensures name == "" ==> refusal == Some(Toast("Please enter a trip name!", "error"))
    ensures name != "" && stops == [] ==> refusal == Some(Toast("Please add at least one city!", "error"))
  {
    if name == "" then Some(Toast("Please enter a trip name!", "error"))
    else if stops == [] then Some(Toast("Please add at least one city!", "error"))
    else None
  }

  /** What follows a successful `TripAPI.create` of trip `tripId`: the
      `StopAPI.add` requests `addCalls` went out for the first stops in
      order, each after the previous one succeeded; the trip is created
      exactly when every stop was added, and otherwise the error of the
      last request is shown. */
  ghost predicate AddPhase(
    tripId: int, name: string, stops: seq<StopDraft>, add: nat -> Option<Error>,
    addCalls: seq<ApiCall>, outcome: SubmitOutcome)
  {
    var added := |addCalls|;
    added <= |stops| && addCalls == AddCalls(tripId, stops[..added]) &&
    (forall j :: 0 <= j < added - 1 ==> add(j).None?) &&
    (outcome.Created? <==> added == |stops| && (added == 0 || add(added - 1).None?)) &&
    (outcome.Created? ==> outcome == Created(tripId, Toast("\"" + name + "\" created successfully!", "success"))) &&
    (outcome.Failed? ==>
      added >= 1 && add(added - 1).Some? && outcome.toast == Toast("Error: " + add(added - 1).value.message, "error")) &&
    !outcome.Rejected?
  }

  /** `createTrip`: validate before any request; then create the trip and
      add its stops one by one, stopping at the first failure. `create` is
      the outcome of `TripAPI.create` (the new trip's id) and `add(i)` that
      of the i-th `StopAPI.add` (`None` when it succeeds). */
  method SubmitTrip(
    nameText: string, startText: string, endText: string, cards: seq<Card>,
    create: Result<int, Error>, add: nat -> Option<Error>)
    returns (outcome: SubmitOutcome, calls: seq<ApiCall>)
    ensures var refusal := Validate(Trim(nameText), Drafts(cards));
      (refusal.Some? ==> outcome == Rejected(refusal.value) && calls == []) &&
      (refusal.None? ==> (!outcome.Rejected? && |calls| >= 1 &&
        calls[0] == CreateTripCall(Trim(nameText), DateValue(startText), DateValue(endText))))
    ensures !outcome.Rejected? && create.Err? ==>
      calls == calls[..1] && outcome == Failed(Toast("Error: " + create.error.message, "error"))
    ensures !outcome.Rejected? && create.Ok? ==>
      |calls| >= 1 && AddPhase(create.value, Trim(nameText), Drafts(cards), add, calls[1..], outcome)
  {
    var name := Trim(nameText);
    var startDate := DateValue(startText);
    var endDate := DateValue(endText);
    var stops := CollectStops(cards);
    calls := [];
    var refusal := Validate(name, stops);
    if refusal.Some? {
      return Rejected(refusal.value), calls;
    }
    calls := [CreateTripCall(name, startDate, endDate)];
    if create.Err? {
      return Failed(Toast("Error: " + create.error.message, "error")), calls;
    }
    var failure;
    var added;
    failure, added := AddStops(create.value, stops, add);
    if failure.Some? {
      outcome := Failed(Toast("Error: " + add(failure.value).value.message, "error"));
    } else {
      outcome := Created(create.value, Toast("\"" + name + "\" created successfully!", "success"));
    }
    AddPhaseOfAddStops(create.value, name, stops, add, failure, added, outcome);
    calls := calls + added;
    assert calls[1..] == added;
  }

  /** The outcome `createTrip` reports after the loop over the stops meets
      `AddPhase`. */
  lemma AddPhaseOfAddStops(
    tripId: int, name: string, stops: seq<StopDraft>, add: nat -> Option<Error>,
    failure: Option<nat>, addCalls: seq<ApiCall>, outcome: SubmitOutcome)
    requires failure.None? <==> forall j :: 0 <= j < |stops| ==> add(j).None?
    requires failure.None? ==> addCalls == AddCalls(tripId, stops)
    requires failure.Some? ==>
      failure.value < |stops| && add(failure.value).Some? &&
      (forall j :: 0 <= j < failure.value ==> add(j).None?) &&
      addCalls == AddCalls(tripId, stops[..failure.value + 1])
    requires failure.Some? ==> outcome == Failed(Toast("Error: " + add(failure.value).value.message, "error"))
    requires failure.None? ==> outcome == Created(tripId, Toast("\"" + name + "\" created successfully!", "success"))
    ensures AddPhase(tripId, name, stops, add, addCalls, outcome)
  {
    if failure.None? {
      assert stops[..|stops|] == stops;
      if |stops| > 0 {
        assert add(|stops| - 1).None?;
      }
    }
  }

  /** The loop of `createTrip` over the collected stops: one `StopAPI.add`
      per stop, in order, until the first one that fails. */
  method AddStops(tripId: int, stops: seq<StopDraft>, add: nat -> Option<Error>)
    returns (failure: Option<nat>, calls: seq<ApiCall>)
    ensures failure.None? <==> forall j :: 0 <= j < |stops| ==> add(j).None?
    ensures failure.None? ==> calls == AddCalls(tripId, stops)
    ensures failure.Some? ==>
      failure.value < |stops| && add(failure.value).Some? &&
      (forall j :: 0 <= j < failure.value ==> add(j).None?) &&
      calls == AddCalls(tripId, stops[..failure.value + 1])
  {
    calls := [];
    var i := 0;
    while i < |stops|
      invariant 0 <= i <= |stops|
      invariant calls == AddCalls(tripId, stops[..i])
      invariant forall j :: 0 <= j < i ==> add(j).None?
    {
      var stop := stops[i];
      calls := calls + [AddStopCall(tripId, stop.city, stop.mode, stop.stayDays)];
      assert calls == AddCalls(tripId, stops[..i + 1]);
      if add(i).Some? {
        return Some(i), calls;
      }
      i := i + 1;
    }
    assert stops[..i] == stops;
    failure := None;
  }
}
