/** The trip router: every handler of the `/api/trips` routes as an
    operation on an in-memory copy of the `trips` and `stops` tables. Each
    table is a map from row id to row together with the next id its
    AUTOINCREMENT key will hand out. */
module TripRoutes {
  import opened Wrappers
  import opened JsText
  import opened Schema
  import Gemini

  /** The JSON body of a response. */
  datatype Body =
    | Message(message: string)
    | Failure(error: string)
    | FailureDetails(error: string, details: string)
    | CreatedTrip(id: int, name: string, startDate: Option<string>, endDate: Option<string>, message: string)
    | TripList(trips: seq<TripRow>)
    | TripWithStops(trip: TripRow, stops: seq<StopRow>)
    | CreatedStop(id: int, tripId: int, city: string, mode: string, stayDays: int, message: string)
    | Estimate(estimate: Json)

  /** An HTTP status code and its JSON body. */
  datatype Response = Response(status: int, body: Body)

  const TripNotFound := Response(404, Failure("Trip not found"))

  /** `d || null`: a missing or empty date is stored as NULL. */
  function DateOrNull(d: Option<string>): (r: Option<string>)
    ensures r.Some? <==> Truthy(d)
    ensures r.Some? ==> r == d
    ensures r != Some("")
  {
    if Truthy(d) then d else None
  }

  // ---------------------------------------------------------------- queries over the tables

  /** Every key of a table is the id stored in its row, and lies in
      `[1, next)`. */
  ghost predicate TripKeys(trips: map<int, TripRow>, next: int) {
    forall id :: id in trips ==> 1 <= id < next && trips[id].id == id
  }

  ghost predicate StopKeys(stops: map<int, StopRow>, next: int) {
    forall id :: id in stops ==> 1 <= id < next && stops[id].id == id
  }

  /** `v` is the row stored under `id`. */
  predicate Stored<V(==)>(table: map<int, V>, id: int, v: V) {
    id in table && table[id] == v
  }

  /** The rows of `trips` under ids in `[1, n)`, newest (highest id) first. */
  function TripsBelow(trips: map<int, TripRow>, n: int): (r: seq<TripRow>)
    requires forall id :: id in trips ==> trips[id].id == id
    ensures forall t :: t in r <==> 1 <= t.id < n && Stored(trips, t.id, t)
    ensures forall i, j :: 0 <= i < j < |r| ==> r[i].id > r[j].id
    decreases n
  {
    if n <= 1 then []
    else if n - 1 in trips then [trips[n - 1]] + TripsBelow(trips, n - 1)
    else TripsBelow(trips, n - 1)
  }

  /** The stops of trip `tripId` under ids in `[1, n)`, in ascending id
      order: `SELECT * FROM stops WHERE trip_id = ? ORDER BY id`. */
  function StopsOf(stops: map<int, StopRow>, tripId: int, n: int): (r: seq<StopRow>)
    requires forall id :: id in stops ==> stops[id].id == id
    ensures forall s :: s in r <==> 1 <= s.id < n && Stored(stops, s.id, s) && s.tripId == tripId
    ensures forall i, j :: 0 <= i < j < |r| ==> r[i].id < r[j].id
    decreases n
  {
    if n <= 1 then []
    else if n - 1 in stops && stops[n - 1].tripId == tripId then StopsOf(stops, tripId, n - 1) + [stops[n - 1]]
    else StopsOf(stops, tripId, n - 1)
  }

  /** Two id-ordered lists with the same elements are equal. */
  lemma {:induction false} AscendingUnique(a: seq<StopRow>, b: seq<StopRow>)
    requires forall i, j :: 0 <= i < j < |a| ==> a[i].id < a[j].id
    requires forall i, j :: 0 <= i < j < |b| ==> b[i].id < b[j].id
    requires forall s :: s in a <==> s in b
    ensures a == b
    decreases |a| + |b|
  {
    if a != [] && b != [] {
      assert a[0] in b;
      assert b[0] in a;
      assert a[0] == b[0] by {
        var i :| 0 <= i < |b| && b[i] == a[0];
        var j :| 0 <= j < |a| && a[j] == b[0];
        assert a[0].id <= a[j].id;
        assert b[0].id <= b[i].id;
        assert i == 0;
      }
      forall s ensures s in a[1..] <==> s in b[1..] {
        if s in a[1..] {
          var i :| 1 <= i < |a| && a[i] == s;
          assert s != a[0];
          assert s in b;
          var k :| 0 <= k < |b| && b[k] == s;
          assert k != 0;
          assert s == b[1..][k - 1];
        }
        if s in b[1..] {
          var i :| 1 <= i < |b| && b[i] == s;
          assert s != b[0];
          assert s in a;
          var k :| 0 <= k < |a| && a[k] == s;
          assert k != 0;
          assert s == a[1..][k - 1];
        }
      }
      AscendingUnique(a[1..], b[1..]);
      assert a == [a[0]] + a[1..] && b == [b[0]] + b[1..];
    } else if a != [] {
      FirstIsMember(a);
    } else if b != [] {
      FirstIsMember(b);
    }
  }

  lemma FirstIsMember(a: seq<StopRow>)
    requires a != []
    ensures a[0] in a
  {
  }

  /** A stop inserted under a fresh id `n` comes last among its trip's
      stops: after POST /:id/stops, GET /:id lists the old stops and then
      the new one. */
  lemma StopsOfAfterInsert(stops: map<int, StopRow>, tripId: int, n: int, row: StopRow)
    requires 1 <= n && StopKeys(stops, n) && row.id == n
    ensures StopKeys(stops[n := row], n + 1)
    ensures StopsOf(stops[n := row], tripId, n + 1)
         == StopsOf(stops, tripId, n) + (if row.tripId == tripId then [row] else [])
  {
    var a := StopsOf(stops[n := row], tripId, n + 1);
    var before := StopsOf(stops, tripId, n);
    var b := before + (if row.tripId == tripId then [row] else []);
    forall s ensures s in a <==> s in b {
      if s.id == n {
        assert s !in before;
        assert Stored(stops[n := row], s.id, s) <==> s == row;
      } else {
        assert Stored(stops[n := row], s.id, s) <==> Stored(stops, s.id, s);
      }
    }
    forall i, j | 0 <= i < j < |b| ensures b[i].id < b[j].id {
      if j == |before| {
        assert b[i] == before[i] && before[i] in before;
      }
    }
    AscendingUnique(a, b);
  }

  // ---------------------------------------------------------------- the store

  /** The two tables and their id counters. */
  class TripDb {
    var trips: map<int, TripRow>
    var stops: map<int, StopRow>
    var nextTripId: int
    var nextStopId: int

    /** Row keys match row ids and lie below the counters, every stop
        belongs to an existing trip, and every stored stop has a non-empty
        city, a non-empty mode and a non-zero day count (the handlers store
        `mode || "train"` and `stay_days || 1`). */
    ghost predicate Valid()
      reads this
    {
      1 <= nextTripId && 1 <= nextStopId &&
      TripKeys(trips, nextTripId) && StopKeys(stops, nextStopId) &&
      (forall id :: id in stops ==>
        stops[id].tripId in trips && stops[id].city != "" && stops[id].mode != "" && stops[id].stayDays != 0)
    }

    /** An empty database. */
    constructor ()
      ensures Valid()
      ensures trips == map[] && stops == map[]
    {
      trips := map[];
      stops := map[];
      nextTripId := 1;
      nextStopId := 1;
    }

    /** POST /: a trip needs a truthy name; the dates are stored as NULL
        when missing or empty and echoed as received. */
    method CreateTrip(name: Option<string>, startDate: Option<string>, endDate: Option<string>)
      returns (resp: Response)
      requires Valid()
      modifies this
      ensures Valid()
      ensures stops == old(stops) && nextStopId == old(nextStopId)
      ensures !Truthy(name) ==> (resp == Response(400, Failure("Trip name is required")) &&
        trips == old(trips) && nextTripId == old(nextTripId))
      ensures Truthy(name) ==> (
        old(nextTripId) !in old(trips) &&
        trips == old(trips)[old(nextTripId) := TripRow(old(nextTripId), name.value, DateOrNull(startDate), DateOrNull(endDate))] &&
        nextTripId == old(nextTripId) + 1 &&
        resp == Response(201, CreatedTrip(old(nextTripId), name.value, startDate, endDate, "Trip created successfully")))
    {
      if !Truthy(name) {
        return Response(400, Failure("Trip name is required"));
      }
      var id := nextTripId;
      trips := trips[id := TripRow(id, name.value, DateOrNull(startDate), DateOrNull(endDate))];
      nextTripId := nextTripId + 1;
      resp := Response(201, CreatedTrip(id, name.value, startDate, endDate, "Trip created successfully"));
    }

    /** GET /: every trip, each once, newest first. */
    function ListTrips(): (resp: Response)
      requires Valid()
      reads this
      ensures resp.status == 200 && resp.body.TripList?
      ensures forall t :: t in resp.body.trips <==> Stored(trips, t.id, t)
      ensures forall i, j :: 0 <= i < j < |resp.body.trips| ==> resp.body.trips[i].id > resp.body.trips[j].id
    {
      Response(200, TripList(TripsBelow(trips, nextTripId)))
    }

    /** The stops of one trip in id order. */
    function TripStops(tripId: int): (r: seq<StopRow>)
      requires Valid()
      reads this
      ensures forall s :: s in r <==> Stored(stops, s.id, s) && s.tripId == tripId
      ensures forall i, j :: 0 <= i < j < |r| ==> r[i].id < r[j].id
    {
      StopsOf(stops, tripId, nextStopId)
    }

    /** GET /:id: 404 for a missing trip, else the trip with exactly its
        stops in id order. */
    function GetTrip(id: int): (resp: Response)
      requires Valid()
      reads this
      ensures resp.status == 404 <==> id !in trips
      ensures id !in trips ==> resp == TripNotFound
      ensures id in trips ==> resp.status == 200 && resp.body.TripWithStops? && resp.body.trip == trips[id]
      ensures id in trips ==> forall s :: s in resp.body.stops <==> Stored(stops, s.id, s) && s.tripId == id
      ensures id in trips ==> forall i, j :: 0 <= i < j < |resp.body.stops| ==> resp.body.stops[i].id < resp.body.stops[j].id
    {
      if id !in trips then TripNotFound else Response(200, TripWithStops(trips[id], TripStops(id)))
    }

    /** PUT /:id: overwrite name and both dates as received. No row
        changes for a missing trip (404); a missing name is bound as NULL
        and violates `name NOT NULL` on an existing row (500). */
    method UpdateTrip(id: int, name: Option<string>, startDate: Option<string>, endDate: Option<string>)
      returns (resp: Response)
      requires Valid()
      modifies this
      ensures Valid()
      ensures stops == old(stops) && nextTripId == old(nextTripId) && nextStopId == old(nextStopId)
      ensures resp.status == 404 <==> id !in old(trips)
      ensures id !in old(trips) ==> resp == TripNotFound && trips == old(trips)
      ensures id in old(trips) && name.None? ==>
        resp == Response(500, Failure("Failed to update trip")) && trips == old(trips)
      ensures id in old(trips) && name.Some? ==>
        resp == Response(200, Message("Trip updated successfully")) &&
        trips == old(trips)[id := TripRow(id, name.value, startDate, endDate)]
    {
      if id !in trips {
        return TripNotFound;
      }
      if name.None? {
        return Response(500, Failure("Failed to update trip"));
      }
      trips := trips[id := TripRow(id, name.value, startDate, endDate)];
      resp := Response(200, Message("Trip updated successfully"));
    }

    /** DELETE /:id: delete the trip's stops, then the trip. With a
        consistent store there are no stops to delete when the trip is
        missing, so a 404 leaves both tables as they were. */
    method DeleteTrip(id: int) returns (resp: Response)
      requires Valid()
      modifies this
      ensures Valid()
      ensures nextTripId == old(nextTripId) && nextStopId == old(nextStopId)
      ensures stops == map k | k in old(stops) && old(stops)[k].tripId != id :: old(stops)[k]
      ensures trips == old(trips) - {id}
      ensures resp.status == 404 <==> id !in old(trips)
      ensures id !in old(trips) ==> resp == TripNotFound && stops == old(stops)
      ensures id in old(trips) ==> resp == Response(200, Message("Trip deleted successfully"))
    {
      stops := map k | k in stops && stops[k].tripId != id :: stops[k];
      if id !in trips {
        assert forall k :: k in old(stops) ==> old(stops)[k].tripId != id;
        assert stops.Keys == old(stops).Keys;
        assert trips - {id} == trips;
        return TripNotFound;
      }
      trips := trips - {id};
      resp := Response(200, Message("Trip deleted successfully"));
    }

    /** POST /:id/stops: 404 for a missing trip before 400 for a missing
        city; the stored and echoed mode and day count default to "train"
        and 1. */
    method AddStop(tripId: int, city: Option<string>, mode: Option<string>, stayDays: Option<int>)
      returns (resp: Response)
      requires Valid()
      modifies this
      ensures Valid()
      ensures trips == old(trips) && nextTripId == old(nextTripId)
      ensures tripId !in trips ==> resp == TripNotFound
      ensures tripId in trips && !Truthy(city) ==> resp == Response(400, Failure("City is required"))
      ensures resp.status != 201 ==> stops == old(stops) && nextStopId == old(nextStopId)
      ensures resp.status == 201 <==> tripId in trips && Truthy(city)
      ensures resp.status == 201 ==>
        var row := StopRow(old(nextStopId), tripId, city.value, StringOr(mode, "train"), IntOr(stayDays, 1));
        old(nextStopId) !in old(stops) &&
        stops == old(stops)[old(nextStopId) := row] &&
        nextStopId == old(nextStopId) + 1 &&
        resp.body == CreatedStop(row.id, tripId, row.city, row.mode, row.stayDays, "Stop added successfully")
    {
      if tripId !in trips {
        return TripNotFound;
      }
      if !Truthy(city) {
        return Response(400, Failure("City is required"));
      }
      var id := nextStopId;
      var row := StopRow(id, tripId, city.value, StringOr(mode, "train"), IntOr(stayDays, 1));
      stops := stops[id := row];
      nextStopId := nextStopId + 1;
      resp := Response(201, CreatedStop(id, tripId, row.city, row.mode, row.stayDays, "Stop added successfully"));
    }

    /** DELETE /:tripId/stops/:stopId: only a stop with both ids matching is
        removed. */
    method DeleteStop(tripId: int, stopId: int) returns (resp: Response)
      requires Valid()
      modifies this
      ensures Valid()
      ensures trips == old(trips) && nextTripId == old(nextTripId) && nextStopId == old(nextStopId)
      ensures var found := stopId in old(stops) && old(stops)[stopId].tripId == tripId;
        (found ==> stops == old(stops) - {stopId} && resp == Response(200, Message("Stop deleted successfully"))) &&
        (!found ==> stops == old(stops) && resp == Response(404, Failure("Stop not found")))
    {
      if stopId in stops && stops[stopId].tripId == tripId {
        stops := stops - {stopId};
        resp := Response(200, Message("Stop deleted successfully"));
      } else {
        resp := Response(404, Failure("Stop not found"));
      }
    }

    /** POST /:id/estimate-all: 404 for a missing trip and 400 for a trip
        without stops, both before the model is asked; otherwise the
        itinerary estimate of the trip's name and its stops in id order,
        or 500 when it fails. `calls` counts the model calls. */
    method EstimateAll(
      id: int, generate: (string, nat) -> Result<string, Error>, parse: string -> Result<Json, Error>)
      returns (resp: Response, calls: nat)
      requires Valid()
      ensures id !in trips ==> resp == TripNotFound
      ensures id in trips && TripStops(id) == [] ==> resp == Response(400, Failure("No stops found for this trip"))
      ensures calls == 0 <==> id !in trips || TripStops(id) == []
      ensures id in trips && TripStops(id) != [] ==> resp.status == 200 || resp.status == 500
      ensures calls <= 3
      ensures resp.status == 200 ==> (id in trips && TripStops(id) != [] && resp.body.Estimate? &&
        Gemini.GenerateResponse(Gemini.ItineraryPrompt(trips[id].name, TripStops(id)), generate, parse, calls - 1)
          == Ok(resp.body.estimate))
      ensures id in trips && TripStops(id) != [] ==>
        Gemini.CallsFail(Gemini.ItineraryPrompt(trips[id].name, TripStops(id)), generate, parse, calls - 1)
      ensures resp.status == 500 ==> calls == 3
      ensures resp.status == 500 ==> (id in trips && TripStops(id) != [] &&
        Gemini.CallsFail(Gemini.ItineraryPrompt(trips[id].name, TripStops(id)), generate, parse, 3))
      ensures resp.status in {200, 400, 404, 500}
      ensures resp.status == 500 ==> resp == Response(500, Failure("AI estimation failed"))
    {
      if id !in trips {
        return TripNotFound, 0;
      }
      var rows := TripStops(id);
      if rows == [] {
        return Response(400, Failure("No stops found for this trip")), 0;
      }
      var r, delays;
      r, calls, delays := Gemini.EstimateItinerary(trips[id].name, rows, generate, parse);
      if r.Ok? {
        resp := Response(200, Estimate(r.value));
      } else {
        resp := Response(500, Failure("AI estimation failed"));
      }
    }
  }

  /** POST /estimate: the single-leg estimate, or 500 with the error's
      message as details. */
  method EstimateLeg(
    data: Gemini.LegRequest, generate: (string, nat) -> Result<string, Error>, parse: string -> Result<Json, Error>)
    returns (resp: Response, calls: nat)
    ensures 1 <= calls <= 3
    ensures resp.status == 200 || resp.status == 500
    ensures resp.status == 200 ==> (resp.body.Estimate? &&
      Gemini.GenerateResponse(Gemini.SingleLegPrompt(data), generate, parse, calls - 1) == Ok(resp.body.estimate))
    ensures Gemini.CallsFail(Gemini.SingleLegPrompt(data), generate, parse, calls - 1)
    ensures resp.status == 500 ==> Gemini.CallsFail(Gemini.SingleLegPrompt(data), generate, parse, 3)
    ensures resp.status == 500 ==> (calls == 3 &&
      var last := Gemini.GenerateResponse(Gemini.SingleLegPrompt(data), generate, parse, 2);
      last.Err? &&
      resp == Response(500, FailureDetails("AI estimation failed", "Failed to get AI estimation: " + last.error.message)))
  {
    var r, delays;
    r, calls, delays := Gemini.EstimateTrip(data, generate, parse);
    if r.Ok? {
      resp := Response(200, Estimate(r.value));
    } else {
      resp := Response(500, FailureDetails("AI estimation failed", r.error.message));
    }
  }
}
