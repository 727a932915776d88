/**
 * The handler as it runs: a store object whose `table` field stands for the
 * letters table, and methods that check the request step by step, return
 * early on each error and change the table as `put_item`, `delete_item` and
 * `update_item` do. Each method is proved to produce exactly the response and
 * table that module Handler specifies.
 */
module Store {
  import opened Wrappers
  import opened PyInt
  import opened Letters
  import opened Handler

  class LetterStore {
    var table: Table

    /** Every item is stored under its own `letter_id`. */
    ghost predicate Valid()
      reads this
    {
      KeysMatch(table)
    }

    constructor (initial: Table)
      requires KeysMatch(initial)
      ensures Valid() && table == initial
    {
      table := initial;
    }

    /** `handle_post_request`. */
    method HandlePost(body: Body, id: string, now: int, faults: StoreFaults) returns (r: Response)
      requires Valid()
      modifies this
      ensures Valid()
      ensures Outcome(r, table) == Post(old(table), body, id, now, faults)
    {
      if body.receiver.None? || body.content.None? {
        return CreateResponse(400, Error(MissingFields));
      }
      var expiryDays := body.expiryDays.GetOr(DefaultExpiryDays);
      var expiryDate: Option<int> := None;
      if expiryDays != NeverExpires {
        var days := ParseInt(expiryDays);
        if days.None? {
          return CreateResponse(400, Error(InvalidExpiry));
        }
        var sum := AddDays(now, days.value);
        if sum.ExpiryOverflow? {
          return CreateResponse(500, Error(SaveFailed + sum.reason));
        }
        expiryDate := sum.expiry;
      }
      var item := Letter(
        letterId := id,
        sender := body.sender.GetOr(DefaultSender),
        receiver := body.receiver.value,
        content := body.content.value,
        isAnonymous := body.isAnonymous.GetOr(false),
        isPublic := body.isPublic.GetOr(false),
        createdAt := now,
        expiry := expiryDate,
        views := Some(0));
      if faults.put.Some? {
        return CreateResponse(500, Error(SaveFailed + faults.put.value));
      }
      table := table[id := item];
      r := CreateResponse(200, Created(true, "http://" + BaseUrl + "/letter/" + id, id));
    }

    /** `handle_get_request`. */
    method HandleGet(pathParameters: Option<map<string, string>>, now: int, faults: StoreFaults) returns (r: Response)
      requires Valid()
      modifies this
      ensures Valid()
      ensures Outcome(r, table) == Get(old(table), pathParameters, now, faults)
    {
      if pathParameters.None? || |pathParameters.value| == 0 || "letter_id" !in pathParameters.value {
        return CreateResponse(400, Error(MissingId));
      }
      var id := pathParameters.value["letter_id"];
      if faults.get.Some? {
        return CreateResponse(500, Error(RetrieveFailed + faults.get.value));
      }
      if id !in table {
        return CreateResponse(404, Error(NotFound));
      }
      var letter := table[id];
      if letter.expiry.Some? {
        if letter.expiry.value < now {
          if faults.delete.Some? {
            return CreateResponse(500, Error(RetrieveFailed + faults.delete.value));
          }
          table := table - {id};
          return CreateResponse(404, Error(HasExpired));
        }
      }
      var currentViews: int;
      if faults.update.None? {
        var updated := letter.views.GetOr(0) + 1;
        table := table[id := letter.(views := Some(updated))];
        currentViews := updated;
      } else {
        currentViews := letter.views.GetOr(0) + 1;
      }
      r := CreateResponse(200, Served(true, LetterView(letter.sender, letter.receiver, letter.content,
                                                          letter.createdAt, currentViews)));
    }

    /** `lambda_handler`: route on the HTTP method. */
    method LambdaHandler(event: Event, id: string, now: int, faults: StoreFaults) returns (r: Response)
      requires Valid()
      modifies this
      ensures Valid()
      ensures Outcome(r, table) == Dispatch(old(table), event, id, now, faults)
      ensures r.headers == CorsHeaders()
    {
      var httpMethod := if event.httpMethod.Some? && event.httpMethod.value != "" then event.httpMethod
                        else event.contextMethod;
      if httpMethod == Some("OPTIONS") {
        return CreateResponse(200, Message("CORS enabled"));
      }
      if httpMethod == Some("POST") {
        r := HandlePost(event.body, id, now, faults);
      } else if httpMethod == Some("GET") {
        r := HandleGet(event.pathParameters, now, faults);
      } else {
        r := CreateResponse(405, Error("Method not allowed: " + MethodText(httpMethod)));
      }
    }
  }
}
