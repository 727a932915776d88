/**
 * The data of the letters service: the stored letter record, the request the
 * gateway delivers, and the response the handler returns through
 * `create_response`.
 *
 * Time is an integer count of microseconds since 0001-01-01T00:00:00, the
 * earliest value of Python's `datetime`; the latest representable instant is
 * 9999-12-31T23:59:59.999999, one microsecond before `TimeLimit`.
 */
module Letters {
  import opened Wrappers

  const MicrosPerDay: int := 86_400_000_000
  /** Number of days from 0001-01-01 to 9999-12-31 inclusive. */
  const CalendarDays: int := 3_652_059
  const TimeLimit: int := CalendarDays * MicrosPerDay

  /** `t` is an instant a Python `datetime` can hold. */
  predicate InCalendar(t: int) {
    0 <= t < TimeLimit
  }

  /** One item of the letters table. `expiry` None is the stored `expiry_date = None`;
      `views` None is an item without a counter. */
  datatype Letter = Letter(
    letterId: string,
    sender: string,
    receiver: string,
    content: string,
    isAnonymous: bool,
    isPublic: bool,
    createdAt: int,
    expiry: Option<int>,
    views: Option<int>)

  /** The table, keyed by `letter_id`. */
  type Table = map<string, Letter>

  /** Every item sits under its own `letter_id`, as the table's primary key guarantees. */
  predicate KeysMatch(t: Table) {
    forall k :: k in t ==> t[k].letterId == k
  }

  /** The view counter, reading a missing counter as 0. */
  function ViewCount(l: Letter): int {
    l.views.GetOr(0)
  }

  /** The decoded POST body: each field is None when its key is absent. */
  datatype Body = Body(
    sender: Option<string>,
    receiver: Option<string>,
    content: Option<string>,
    isAnonymous: Option<bool>,
    isPublic: Option<bool>,
    expiryDays: Option<string>)

  /** The body of an event without one (`event.get('body', '{}')`). */
  const EmptyBody: Body := Body(None, None, None, None, None, None)

  /** The parts of the gateway event the handler reads: `httpMethod`,
      `requestContext.http.method`, the body and `pathParameters`
      (None when absent or null). */
  datatype Event = Event(
    httpMethod: Option<string>,
    contextMethod: Option<string>,
    body: Body,
    pathParameters: Option<map<string, string>>)

  /** The part of a letter a reader is shown. */
  datatype LetterView = LetterView(
    sender: string,
    receiver: string,
    content: string,
    createdAt: int,
    views: int)

  /** The JSON bodies the handler returns. */
  datatype Payload =
    | Message(message: string)
    | Error(error: string)
    | Created(success: bool, letterUrl: string, createdId: string)
    | Served(success: bool, letter: LetterView)

  datatype Response = Response(statusCode: int, headers: map<string, string>, body: Payload)

  const AllowedHeaders: string := "Content-Type,X-Amz-Date,Authorization,X-Api-Key,X-Amz-Security-Token"
  const AllowedMethods: string := "OPTIONS,POST,GET"

  /** The CORS headers attached to every response. */
  function CorsHeaders(): (h: map<string, string>)
    ensures |h| == 4
    ensures "Access-Control-Allow-Origin" in h && h["Access-Control-Allow-Origin"] == "*"
    ensures "Access-Control-Allow-Headers" in h && h["Access-Control-Allow-Headers"] == AllowedHeaders
    ensures "Access-Control-Allow-Methods" in h && h["Access-Control-Allow-Methods"] == AllowedMethods
    ensures "Content-Type" in h && h["Content-Type"] == "application/json"
  {
    var h := map[
      "Access-Control-Allow-Origin" := "*",
      "Access-Control-Allow-Headers" := AllowedHeaders,
      "Access-Control-Allow-Methods" := AllowedMethods,
      "Content-Type" := "application/json"];
    assert h.Keys == {"Access-Control-Allow-Origin", "Access-Control-Allow-Headers",
                      "Access-Control-Allow-Methods", "Content-Type"};
    h
  }

  /** `create_response(status_code, body)`. */
  function CreateResponse(status: int, body: Payload): (r: Response)
    ensures r.statusCode == status && r.body == body && r.headers == CorsHeaders()
  {
    Response(status, CorsHeaders(), body)
  }
}
