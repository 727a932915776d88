/**
 * What one invocation of the letters handler does, as pure functions from the
 * table before the request to the response and the table after it.
 * `Dispatch` is `lambda_handler`, `Post` is `handle_post_request`, `Get` is
 * `handle_get_request`; the class in module Store performs the same steps
 * imperatively and is proved equal to these functions.
 *
 * The fresh `letter_id` (a `uuid4()` in the service), the current time and the
 * failures of the store are parameters.
 */
module Handler {
  import opened Wrappers
  import opened PyInt
  import opened Letters

  const BaseUrl: string := "digital-chitthi-web.s3-website-us-east-1.amazonaws.com"
  const DefaultExpiryDays: string := "7"
  const NeverExpires: string := "never"
  const DefaultSender: string := "Anonymous"

  const MissingFields: string := "Missing required fields"
  const InvalidExpiry: string := "Invalid expiry days"
  const MissingId: string := "Missing letter ID"
  const NotFound: string := "Letter not found"
  const HasExpired: string := "Letter has expired"
  const SaveFailed: string := "Failed to save letter: "
  const RetrieveFailed: string := "Failed to retrieve letter: "

  /** Largest magnitude of `timedelta(days=…)`, and the range of a C `int`,
      through which Python's datetime module converts the day count. */
  const MaxDeltaDays: int := 999_999_999
  const CIntMin: int := -0x8000_0000
  const CIntMax: int := 0x7FFF_FFFF

  /** For each store call, Some(message) when that call raises an exception whose
      text is `message`; a call that raises changes nothing. */
  datatype StoreFaults = StoreFaults(
    put: Option<string>,
    get: Option<string>,
    delete: Option<string>,
    update: Option<string>)

  const NoFaults: StoreFaults := StoreFaults(None, None, None, None)

  /** The response of one invocation and the table it leaves behind. */
  datatype Outcome = Outcome(response: Response, table: Table)

  /** How reading `expiryDays` ends: an expiry (None for "never"), the ValueError
      of `int()`, or the OverflowError of the date arithmetic with its text. */
  datatype ExpiryOutcome =
    | ExpiryOk(expiry: Option<int>)
    | ExpiryInvalid
    | ExpiryOverflow(reason: string)

  /** `now + timedelta(days=days)`. */
  function AddDays(now: int, days: int): (e: ExpiryOutcome)
    ensures !e.ExpiryInvalid?
    ensures e.ExpiryOk? <==> -MaxDeltaDays <= days <= MaxDeltaDays && InCalendar(now + days * MicrosPerDay)
    ensures e.ExpiryOk? ==> e.expiry == Some(now + days * MicrosPerDay)
  {
    if days < CIntMin || CIntMax < days then
      ExpiryOverflow("Python int too large to convert to C int")
    else if days < -MaxDeltaDays || MaxDeltaDays < days then
      ExpiryOverflow("days=" + DecimalString(days) + "; must have magnitude <= " + DecimalString(MaxDeltaDays))
    else if !InCalendar(now + days * MicrosPerDay) then
      ExpiryOverflow("date value out of range")
    else
      ExpiryOk(Some(now + days * MicrosPerDay))
  }

  /** The expiry that `expiryDays` (already defaulted) gives at time `now`. */
  function ComputeExpiry(arg: string, now: int): (e: ExpiryOutcome)
    ensures arg == NeverExpires ==> e == ExpiryOk(None)
    ensures e.ExpiryInvalid? <==> arg != NeverExpires && ParseInt(arg).None?
    ensures e.ExpiryOk? && e.expiry.Some? ==>
              ParseInt(arg).Some? && e.expiry.value == now + ParseInt(arg).value * MicrosPerDay
              && InCalendar(e.expiry.value)
    ensures e.ExpiryOk? && e.expiry.None? ==> arg == NeverExpires
    ensures arg != NeverExpires && ParseInt(arg).Some? ==> e == AddDays(now, ParseInt(arg).value)
  {
    if arg == NeverExpires then ExpiryOk(None)
    else
      match ParseInt(arg)
      case None => ExpiryInvalid
      case Some(days) => AddDays(now, days)
  }

  function ExpiryArg(body: Body): string {
    body.expiryDays.GetOr(DefaultExpiryDays)
  }

  predicate HasRequiredFields(body: Body) {
    body.receiver.Some? && body.content.Some?
  }

  /** The share URL of letter `id`. */
  function LetterUrl(id: string): (u: string)
    ensures |u| > |id| && u[|u| - |id|..] == id
    ensures u[..|u| - |id|] == "http://" + BaseUrl + "/letter/"
  {
    "http://" + BaseUrl + "/letter/" + id
  }

  /** The item a valid POST stores. */
  function NewLetter(body: Body, id: string, now: int, expiry: Option<int>): Letter
    requires HasRequiredFields(body)
  {
    Letter(
      letterId := id,
      sender := body.sender.GetOr(DefaultSender),
      receiver := body.receiver.value,
      content := body.content.value,
      isAnonymous := body.isAnonymous.GetOr(false),
      isPublic := body.isPublic.GetOr(false),
      createdAt := now,
      expiry := expiry,
      views := Some(0))
  }

  /** `l` is what a valid POST of `body` at `now` stores under `id`. */
  predicate StoredFrom(l: Letter, body: Body, id: string, now: int) {
    && l.letterId == id
    && (body.sender.None? ==> l.sender == DefaultSender)
    && (body.sender.Some? ==> l.sender == body.sender.value)
    && body.receiver == Some(l.receiver)
    && body.content == Some(l.content)
    && (l.isAnonymous <==> body.isAnonymous == Some(true))
    && (l.isPublic <==> body.isPublic == Some(true))
    && l.createdAt == now
    && ComputeExpiry(ExpiryArg(body), now) == ExpiryOk(l.expiry)
    && l.views == Some(0)
  }

  /** `handle_post_request`. */
  function Post(t: Table, body: Body, id: string, now: int, faults: StoreFaults): (o: Outcome)
    ensures o.response.headers == CorsHeaders()
    ensures o.response.statusCode in {200, 400, 500}
    ensures o.response.statusCode != 200 ==> o.table == t
    ensures !HasRequiredFields(body) ==> o.response.body == Error(MissingFields)
    ensures o.response.statusCode == 400 <==>
              !HasRequiredFields(body) || ComputeExpiry(ExpiryArg(body), now).ExpiryInvalid?
    ensures HasRequiredFields(body) && o.response.statusCode == 400 ==> o.response.body == Error(InvalidExpiry)
    ensures o.response.statusCode == 500 ==> o.response.body.Error? && SaveFailed <= o.response.body.error
    ensures o.response.statusCode == 200 <==>
              HasRequiredFields(body) && ComputeExpiry(ExpiryArg(body), now).ExpiryOk? && faults.put.None?
    ensures o.response.statusCode == 200 ==>
              && o.response.body == Created(true, LetterUrl(id), id)
              && o.table.Keys == t.Keys + {id}
              && StoredFrom(o.table[id], body, id, now)
              && (forall k :: k in t && k != id ==> o.table[k] == t[k])
  {
    if !HasRequiredFields(body) then
      Outcome(CreateResponse(400, Error(MissingFields)), t)
    else
      match ComputeExpiry(ExpiryArg(body), now)
      case ExpiryInvalid =>
        Outcome(CreateResponse(400, Error(InvalidExpiry)), t)
      case ExpiryOverflow(reason) =>
        Outcome(CreateResponse(500, Error(SaveFailed + reason)), t)
      case ExpiryOk(expiry) =>
        match faults.put
        case Some(reason) => Outcome(CreateResponse(500, Error(SaveFailed + reason)), t)
        case None =>
          Outcome(CreateResponse(200, Created(true, LetterUrl(id), id)), t[id := NewLetter(body, id, now, expiry)])
  }

  /** The `letter_id` path parameter, None when `pathParameters` is missing, empty or lacks it. */
  function RequestedId(pathParameters: Option<map<string, string>>): (r: Option<string>)
    ensures r.Some? <==> pathParameters.Some? && "letter_id" in pathParameters.value
    ensures r.Some? ==> r.value == pathParameters.value["letter_id"]
  {
    if pathParameters.None? || |pathParameters.value| == 0 || "letter_id" !in pathParameters.value then None
    else Some(pathParameters.value["letter_id"])
  }

  /** The letter has an expiry date strictly before `now`. */
  predicate Expired(l: Letter, now: int) {
    l.expiry.Some? && l.expiry.value < now
  }

  /** What a reader is shown of `l`, with the view count `views`. */
  function View(l: Letter, views: int): (v: LetterView)
    ensures v.sender == l.sender && v.receiver == l.receiver && v.content == l.content
    ensures v.createdAt == l.createdAt && v.views == views
  {
    LetterView(l.sender, l.receiver, l.content, l.createdAt, views)
  }

  /** `handle_get_request`. */
  function Get(t: Table, pathParameters: Option<map<string, string>>, now: int, faults: StoreFaults): (o: Outcome)
    ensures o.response.headers == CorsHeaders()
    ensures o.response.statusCode in {200, 400, 404, 500}
    ensures RequestedId(pathParameters).None? ==> o == Outcome(CreateResponse(400, Error(MissingId)), t)
    ensures o.response.statusCode == 400 ==> RequestedId(pathParameters).None?
    ensures o.response.statusCode == 500 ==>
              o.table == t && o.response.body.Error? && RetrieveFailed <= o.response.body.error
    ensures RequestedId(pathParameters).Some? && faults.get.Some? ==>
              o == Outcome(CreateResponse(500, Error(RetrieveFailed + faults.get.value)), t)
    ensures RequestedId(pathParameters).Some? && faults.get.None? ==>
              var id := RequestedId(pathParameters).value;
              && (id in t && Expired(t[id], now) && faults.delete.Some? ==>
                    o == Outcome(CreateResponse(500, Error(RetrieveFailed + faults.delete.value)), t))
              && (id !in t ==> o == Outcome(CreateResponse(404, Error(NotFound)), t))
              && (id in t && Expired(t[id], now) && faults.delete.None? ==>
                    o == Outcome(CreateResponse(404, Error(HasExpired)), t - {id}))
              && (id in t && !Expired(t[id], now) ==>
                    && o.response == CreateResponse(200, Served(true, View(t[id], ViewCount(t[id]) + 1)))
                    && (faults.update.None? ==> o.table == t[id := t[id].(views := Some(ViewCount(t[id]) + 1))])
                    && (faults.update.Some? ==> o.table == t))
    ensures o.response.statusCode == 200 <==>
              && RequestedId(pathParameters).Some? && faults.get.None?
              && RequestedId(pathParameters).value in t
              && !Expired(t[RequestedId(pathParameters).value], now)
  {
    match RequestedId(pathParameters)
    case None => Outcome(CreateResponse(400, Error(MissingId)), t)
    case Some(id) =>
      if faults.get.Some? then Outcome(CreateResponse(500, Error(RetrieveFailed + faults.get.value)), t)
      else if id !in t then Outcome(CreateResponse(404, Error(NotFound)), t)
      else
        var letter := t[id];
        if Expired(letter, now) then
          match faults.delete
          case Some(reason) => Outcome(CreateResponse(500, Error(RetrieveFailed + reason)), t)
          case None => Outcome(CreateResponse(404, Error(HasExpired)), t - {id})
        else
          var views := ViewCount(letter) + 1;
          var t' := if faults.update.None? then t[id := letter.(views := Some(views))] else t;
          Outcome(CreateResponse(200, Served(true, View(letter, views))), t')
  }

  /** `event.get('httpMethod') or event.get('requestContext', {}).get('http', {}).get('method')`:
      an absent or empty `httpMethod` falls back to the request context. */
  function ResolveMethod(e: Event): (m: Option<string>)
    ensures e.httpMethod.Some? && e.httpMethod.value != "" ==> m == e.httpMethod
    ensures e.httpMethod.None? || e.httpMethod.value == "" ==> m == e.contextMethod
  {
    if e.httpMethod.Some? && e.httpMethod.value != "" then e.httpMethod else e.contextMethod
  }

  /** How a Python f-string renders the method: None prints as "None". */
  function MethodText(m: Option<string>): string {
    match m
    case None => "None"
    case Some(s) => s
  }

  /** `lambda_handler`. */
  function Dispatch(t: Table, e: Event, id: string, now: int, faults: StoreFaults): (o: Outcome)
    ensures o.response.headers == CorsHeaders()
    ensures ResolveMethod(e) == Some("OPTIONS") ==>
              o == Outcome(CreateResponse(200, Message("CORS enabled")), t)
    ensures ResolveMethod(e) == Some("POST") ==> o == Post(t, e.body, id, now, faults)
    ensures ResolveMethod(e) == Some("GET") ==> o == Get(t, e.pathParameters, now, faults)
    ensures ResolveMethod(e) !in {Some("OPTIONS"), Some("POST"), Some("GET")} ==>
              o == Outcome(CreateResponse(405, Error("Method not allowed: " + MethodText(ResolveMethod(e)))), t)
    ensures o.table.Keys <= t.Keys + {id}
    ensures forall k :: k in o.table && k != id ==> k in t && o.table[k].letterId == t[k].letterId
  {
    var m := ResolveMethod(e);
    if m == Some("OPTIONS") then Outcome(CreateResponse(200, Message("CORS enabled")), t)
    else if m == Some("POST") then Post(t, e.body, id, now, faults)
    else if m == Some("GET") then Get(t, e.pathParameters, now, faults)
    else Outcome(CreateResponse(405, Error("Method not allowed: " + MethodText(m))), t)
  }
}
