/** The values the backend stores and exchanges: rows of the `trips` and
    `stops` tables, JSON documents, and JavaScript `Error` objects. */
module Schema {
  import opened Wrappers

  /** A JSON document, as `JSON.parse` produces it and `res.json` sends
      it. Numbers are integers in this model. */
  datatype Json =
    | JNull
    | JBool(b: bool)
    | JNumber(n: int)
    | JString(s: string)
    | JArray(items: seq<Json>)
    | JObject(fields: seq<(string, Json)>)

  /** A thrown JavaScript error; only its message is observable. */
  datatype Error = Error(message: string)

  /** A row of `trips`. `name` is declared NOT NULL; the dates may be NULL.
      The `created_at` timestamp comes from the clock and is not modelled. */
  datatype TripRow = TripRow(id: int, name: string, startDate: Option<string>, endDate: Option<string>)

  /** A row of `stops`. `city` is declared NOT NULL; the routes always store
      a mode and a day count (defaulting to "train" and 1), so both are
      plain values here. `estimated_cost`, `estimated_time` and
      `created_at` are never written by the routes and are not modelled. */
  datatype StopRow = StopRow(id: int, tripId: int, city: string, mode: string, stayDays: int)
}
