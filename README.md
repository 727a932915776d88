# Letters handler: a Dafny model

This project models the request handler of a small serverless service that stores
shareable text "letters" in a key-value table (`lambda-function.py`). The handler
answers three kinds of requests:

- an `OPTIONS` preflight, answered with a fixed CORS acknowledgment;
- a `POST`, which checks the body, works out the expiry from `expiryDays`, stores a
  letter with zero views under a fresh id and returns its share URL;
- a `GET`, which looks a letter up, deletes it if it has expired, and otherwise
  increments its view counter and returns the reader's view of it.

Every response goes through `create_response`, which attaches the same four CORS
headers.

The table is a `map<string, Letter>`. The four store calls become map operations:

- `put_item` becomes an update that overwrites;
- `get_item` becomes a lookup;
- `delete_item` becomes key removal;
- `update_item` with `if_not_exists(views, 0) + 1` becomes an increment that reads an absent counter as 0.

Modules:

- `Wrappers`: the Option type, used for Python values that may be None and dictionary keys that may be absent.
- `PyInt`: Python's `int(str)`, used to read `expiryDays`, and its inverse `str(int)`.
- `Letters`: the letter record, the request event, the response payloads, and `create_response`.
- `Handler`: pure functions `Post`, `Get` and `Dispatch`. Each maps the table before a request to the response and the table after it. Their contracts state the handler's promises.
- `Store`: class `LetterStore`, whose `table` field the methods `HandlePost`, `HandleGet` and `LambdaHandler` change step by step, with the handler's early returns. Each method is proved to produce exactly what `Handler` specifies, and to keep every item under its own `letter_id`.
- `Properties`: lemmas that relate several requests. They cover create-then-read, the expiry lifecycle, successive reads, the update-failure fallback, and the visibility flags never reaching a reader.

Inputs that the service takes from its environment are parameters:

- the new letter's id (`uuid4()` in the service);
- the current time `now`, an integer count of microseconds since 0001-01-01T00:00:00, so that the calendar range of Python's `datetime` is exact;
- the failures of the store, as `StoreFaults`: for each call, either no failure or the text of the exception it raises.

## Model

| member | source | states |
|---|---|---|
| `Letters.CorsHeaders` | lambda-function.py:26-31 | exactly four headers: origin `*`, the fixed allowed-headers list, methods `OPTIONS,POST,GET`, content type `application/json` |
| `Letters.CreateResponse` | lambda-function.py:23-33 | the response carries the given status and body and the four CORS headers |
| `PyInt.ParseIntOfDecimal` | lambda-function.py:77 | `int(str(n)) == n` for every integer of at most 4300 digits |
| `PyInt.ParseIntIgnoresSurroundingSpace` | lambda-function.py:77 | `int()` gives the same answer with any whitespace it skips added before and after its argument: ASCII space, tab, line feed, vertical tab, form feed, carriage return, and the non-ASCII whitespace characters |
| `PyInt.StripIgnoresSurroundingSpace` | lambda-function.py:77 | stripping the whitespace `int()` skips removes exactly such whitespace added around a string |
| `PyInt.ParseIntRefusesInformationSeparator` | lambda-function.py:77 | U+001C before a digit is a ValueError: `int()` does not skip the ASCII information separators, although `str.isspace()` accepts them |
| `PyInt.ParseIntAcceptsUnderscores` | lambda-function.py:77 | `int("1_000") == 1000` |
| `PyInt.ParseIntAcceptsLeadingZeros` | lambda-function.py:77 | `int("007") == 7` |
| `PyInt.ParseIntAcceptsSpaceAndSign` | lambda-function.py:77 | `int(" +12\n") == 12` |
| `PyInt.ParseIntRefusesWords` | lambda-function.py:75-80 | `"never"` and `"abc"` are not integers, so only the `'never'` test keeps "never" from a 400 |
| `PyInt.ParseIntRefusesMisplacedUnderscores` | lambda-function.py:77 | doubled or leading underscores are a ValueError |
| `PyInt.ParseIntRefusesMissingDigits` | lambda-function.py:77 | a bare sign, a space after the sign, and the empty string are ValueErrors |
| `PyInt.DecimalString` | lambda-function.py:78 | the decimal text is non-empty, ends in a digit and starts with `-` exactly for negative numbers |
| `Handler.AddDays` | lambda-function.py:78 | `now + timedelta(days)` succeeds exactly when the day count is within 999999999 and the sum is a representable date; the expiry is then `now + days` days; otherwise an OverflowError is raised |
| `Handler.ComputeExpiry` | lambda-function.py:73-80 | `"never"` gives no expiry; a string `int()` refuses gives the "Invalid expiry days" case; a parsed N gives exactly what `now + timedelta(days=N)` gives, so an expiry exactly N days after `now` when that is in range and the overflow otherwise; any expiry produced lies within the calendar |
| `Handler.LetterUrl` | lambda-function.py:101-102 | the URL is `http://` + the fixed host + `/letter/`, followed by the id |
| `Handler.Post` | lambda-function.py:57-112 | CORS headers; 400 "Missing required fields" when `receiver` or `content` is absent; 400 exactly for that or an invalid `expiryDays`; 500 "Failed to save letter: …" otherwise on failure; table unchanged on every non-200; 200 exactly when the fields are present, the expiry is valid and the put succeeds, and then the response holds the id and its URL, the table gains the id, every other entry is unchanged, and the new item has zero views, `created_at = now`, sender "Anonymous" only when absent, and flags true only when sent as true |
| `Handler.RequestedId` | lambda-function.py:117-123 | an id is requested exactly when `pathParameters` is present and has `letter_id`, and it is that value |
| `Handler.View` | lambda-function.py:157-165 | the reader sees sender, receiver, content, `created_at` and the new count, and nothing else |
| `Handler.Get` | lambda-function.py:114-169 | CORS headers; 400 "Missing letter ID" with the table unchanged exactly when no id is requested; 404 "Letter not found" with the table unchanged for an unknown id; an expired letter is removed and answered 404 "Letter has expired" when `delete_item` succeeds; a live letter is answered 200 with its view and the old count (or 0) plus one, and the table changes only in that letter's counter (or not at all if the update fails); a failing `get_item`, or a failing `delete_item` on an expired letter, answers 500 "Failed to retrieve letter: " followed by the exception text, and leaves the table unchanged |
| `Handler.ResolveMethod` | lambda-function.py:39 | a non-empty `httpMethod` wins; otherwise the request context's method is used |
| `Handler.Dispatch` | lambda-function.py:35-55 | CORS headers on every response; OPTIONS answers 200 "CORS enabled" with the table unchanged; POST is `Post`, GET is `Get`; any other method, or none, answers 405 "Method not allowed: <method>" with the table unchanged; no key is added except the new id, and no item changes its id |
| `Store.LetterStore.constructor` | lambda-function.py:14 | the store starts with the given table, each item under its own id |
| `Store.LetterStore.HandlePost` | lambda-function.py:57-112 | the response and new table are exactly `Handler.Post` of the old table; items stay under their own ids |
| `Store.LetterStore.HandleGet` | lambda-function.py:114-169 | the response and new table are exactly `Handler.Get` of the old table; items stay under their own ids |
| `Store.LetterStore.LambdaHandler` | lambda-function.py:35-55 | the response and new table are exactly `Handler.Dispatch` of the old table, and the response carries the CORS headers |
| `Properties.CreateAddsExactlyOne` | lambda-function.py:98 | a successful create under a fresh id grows the table by exactly one entry and removing it gives back the old table |
| `Properties.ExpiredReadRemovesExactlyOne` | lambda-function.py:135-140 | reading an expired letter answers "Letter has expired" and removes exactly that entry |
| `Properties.DispatchKeepsCountersAndKeys` | lambda-function.py:143-154 | no request lowers the view counter of a letter that stays, except a POST at the entry under its own new id, which `put_item` overwrites; every item stays under its own id |
| `Properties.PostWithoutBodyIsRefused` | lambda-function.py:60-67 | a POST event without a `body` key is answered 400 "Missing required fields" and leaves the table unchanged |
| `Properties.NeverExpiringLetterIsServed` | lambda-function.py:73-93 | a letter created with `"never"` is served at any later time with its fields, sender "Anonymous" when none was sent, and one view |
| `Properties.ExpiringLetterLifecycle` | lambda-function.py:73-140 | a letter created to expire N days later is served up to that instant; the first read after it deletes the letter, answers "Letter has expired" and restores the old table; reads after that answer "Letter not found" |
| `Properties.CreateThenReadExample` | lambda-function.py:83-108 | creating `{receiver: "Bob", content: "Hi", expiryDays: "1"}` returns the id's share URL, and an immediate read shows sender "Anonymous" and views 1 |
| `Properties.SuccessiveReadsCountEach` | lambda-function.py:143-151 | two reads of a live letter report the old count plus one and plus two, and leave the counter two higher |
| `Properties.FailedUpdateReportsSameCount` | lambda-function.py:152-154 | when the counter update fails the reader is told the same count as on success, but the table keeps the old counter |
| `Properties.ReadIgnoresVisibilityFlags` | lambda-function.py:157-166 | letters that differ only in `is_anonymous` and `is_public` give the same read response |

Points of the code's behaviour that are easy to overlook:

- OPTIONS is answered 200 with body `{'message': 'CORS enabled'}`, not with an empty body.
- A `put_item` under an id that is already present overwrites the item and resets its view count to 0. The model keeps that overwrite and does not assume the id is fresh; `CreateAddsExactlyOne` assumes it.
- A missing method is not rejected separately. It reaches the 405 branch as "Method not allowed: None".

## Left out

- The DynamoDB client and the network. The table is an in-memory map. A failed store call is modelled as changing nothing. The store's own validation, such as refusing an empty key string, appears only as a failure in `StoreFaults`.
- Concurrency. Each request runs alone on the map. This leaves out whether `update_item` is atomic under concurrent readers, the race between expiry and a read, and an `update_item` that recreates an item deleted just before.
- JSON decoding and `DecimalEncoder`. The body is a record of optional fields, with strings for the text fields and `expiryDays`, and booleans for the flags. The following are left out: bodies that are not JSON objects, fields of other JSON types (a number or null in `expiryDays`), an event whose `body` is null (a TypeError at lambda-function.py:66, answered 500), and the 500 that `json.loads` failures produce.
- `uuid.uuid4()` and `datetime.now()`. They are parameters. The handler calls `datetime.now()` twice in a POST; the model uses one `now` for both the expiry and `created_at`.
- ISO 8601 text. `isoformat` and `fromisoformat` are replaced by integer timestamps, so `created_at` is returned as a number rather than a string.
- Logging. It has no effect on behaviour.
- `Handler.ResolveMethod`: an event with a falsy `httpMethod` whose `requestContext` or `requestContext.http` is present but null. There `.get` raises AttributeError at lambda-function.py:39, outside any `try`, and the invocation fails without a response. The model has no null for those parts: `contextMethod` is None, and the request is answered 405 "Method not allowed: None".
- Stored items that lack `sender`, `receiver`, `content` or `created_at`. In the service these raise a KeyError and answer 500. The `Letter` type always has those fields.
- The outer exception handler of `lambda_handler` (lambda-function.py:53-55). In the model both request handlers catch every failure themselves, and `create_response` cannot fail, so that path cannot be reached.
- `ParseInt`: does not accept non-ASCII decimal digits, which Python's `int()` also accepts.
- `ParseInt`: the 4300-digit limit is the default of Python 3.11 and its security releases; older runtimes have no limit.
- `Handler.AddDays`: the OverflowError texts are those of CPython's datetime module. They are not part of the repository.
- The browser front end (`script.js`). It is user-interface code.
