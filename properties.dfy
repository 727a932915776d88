/**
 * Properties of the letters handler that relate several requests, or compare
 * requests with one another, stated over the functions of module Handler.
 */
module Properties {
  import opened Wrappers
  import opened PyInt
  import opened Letters
  import opened Handler

  function Path(id: string): Option<map<string, string>> {
    Some(map["letter_id" := id])
  }

  /** A successful create under a fresh id adds exactly that one entry. */
  lemma CreateAddsExactlyOne(t: Table, body: Body, id: string, now: int, faults: StoreFaults)
    requires id !in t
    requires Post(t, body, id, now, faults).response.statusCode == 200
    ensures |Post(t, body, id, now, faults).table| == |t| + 1
    ensures Post(t, body, id, now, faults).table - {id} == t
  {
  }

  /** An expired read removes exactly the entry it read. */
  lemma ExpiredReadRemovesExactlyOne(t: Table, id: string, now: int)
    requires id in t && Expired(t[id], now)
    ensures Get(t, Path(id), now, NoFaults).response.body == Error(HasExpired)
    ensures |Get(t, Path(id), now, NoFaults).table| == |t| - 1
    ensures Get(t, Path(id), now, NoFaults).table == t - {id}
  {
  }

  /** No request lowers the view counter of a letter that stays in the table,
      except a POST, which overwrites whatever is stored under its new id; and
      every request keeps each item under its own id. */
  lemma DispatchKeepsCountersAndKeys(t: Table, e: Event, id: string, now: int, faults: StoreFaults)
    requires KeysMatch(t)
    ensures var t' := Dispatch(t, e, id, now, faults).table;
              && KeysMatch(t')
              && forall k :: k in t' && k in t && (k != id || ResolveMethod(e) != Some("POST")) ==>
                   ViewCount(t'[k]) >= ViewCount(t[k])
  {
  }

  /** A letter created with expiryDays "never" is served at any later time,
      with the stored fields, sender "Anonymous" when none was given, and one view. */
  lemma NeverExpiringLetterIsServed(t: Table, body: Body, id: string, now: int, later: int)
    requires HasRequiredFields(body) && body.expiryDays == Some(NeverExpires)
    ensures Post(t, body, id, now, NoFaults).response.statusCode == 200
    ensures var t1 := Post(t, body, id, now, NoFaults).table;
            var o2 := Get(t1, Path(id), later, NoFaults);
              && o2.response == CreateResponse(200, Served(true,
                   LetterView(body.sender.GetOr(DefaultSender), body.receiver.value, body.content.value, now, 1)))
              && o2.table == t1[id := t1[id].(views := Some(1))]
  {
  }

  /** A letter that expires N days after its creation is served until then; the
      first read after that deletes it and answers "Letter has expired", and it is
      "Letter not found" from then on. */
  lemma ExpiringLetterLifecycle(t: Table, body: Body, id: string, days: int, now: int, later: int)
    requires HasRequiredFields(body) && ParseInt(ExpiryArg(body)) == Some(days) && ExpiryArg(body) != NeverExpires
    requires -MaxDeltaDays <= days <= MaxDeltaDays && InCalendar(now + days * MicrosPerDay)
    requires id !in t
    ensures Post(t, body, id, now, NoFaults).response.statusCode == 200
    ensures var t1 := Post(t, body, id, now, NoFaults).table;
              && t1[id].expiry == Some(now + days * MicrosPerDay)
              && (later <= now + days * MicrosPerDay ==>
                    Get(t1, Path(id), later, NoFaults).response.statusCode == 200)
              && (later > now + days * MicrosPerDay ==>
                    var o2 := Get(t1, Path(id), later, NoFaults);
                      && o2 == Outcome(CreateResponse(404, Error(HasExpired)), t)
                      && Get(o2.table, Path(id), later, NoFaults).response.body == Error(NotFound))
  {
    var t1 := Post(t, body, id, now, NoFaults).table;
    assert StoredFrom(t1[id], body, id, now);
    assert RequestedId(Path(id)) == Some(id);
    assert t1 - {id} == t;
  }

  /** Creating {receiver: "Bob",
      content: "Hi", expiryDays: "1"} returns the share URL of the new id, and
      reading it straight away shows sender "Anonymous" and one view. */
  lemma CreateThenReadExample(t: Table, id: string, now: int)
    requires InCalendar(now + MicrosPerDay)
    ensures var body := Body(None, Some("Bob"), Some("Hi"), None, None, Some("1"));
            var o1 := Post(t, body, id, now, NoFaults);
            var o2 := Get(o1.table, Path(id), now, NoFaults);
              && o1.response == CreateResponse(200, Created(true, "http://" + BaseUrl + "/letter/" + id, id))
              && o2.response == CreateResponse(200, Served(true, LetterView("Anonymous", "Bob", "Hi", now, 1)))
  {
    var body := Body(None, Some("Bob"), Some("Hi"), None, None, Some("1"));
    assert DecimalString(1) == "1";
    ParseIntOfDecimal(1);
    var t1 := Post(t, body, id, now, NoFaults).table;
    assert StoredFrom(t1[id], body, id, now);
    assert RequestedId(Path(id)) == Some(id);
  }

  /** Two successive reads of a live letter report two consecutive counts and
      leave the counter two higher: no increment is lost. */
  lemma SuccessiveReadsCountEach(t: Table, id: string, now1: int, now2: int)
    requires id in t && !Expired(t[id], now1) && !Expired(t[id], now2)
    ensures var o1 := Get(t, Path(id), now1, NoFaults);
            var o2 := Get(o1.table, Path(id), now2, NoFaults);
              && o1.response.body.Served? && o1.response.body.letter.views == ViewCount(t[id]) + 1
              && o2.response.body.Served? && o2.response.body.letter.views == ViewCount(t[id]) + 2
              && o2.table == t[id := t[id].(views := Some(ViewCount(t[id]) + 2))]
  {
  }

  /** When the counter update fails the reader is told the same count, but the
      table keeps the old counter: the fallback undercounts. */
  lemma FailedUpdateReportsSameCount(t: Table, path: Option<map<string, string>>, now: int, reason: string)
    requires RequestedId(path).Some? && RequestedId(path).value in t && !Expired(t[RequestedId(path).value], now)
    ensures var failing := StoreFaults(None, None, None, Some(reason));
              && Get(t, path, now, failing).response == Get(t, path, now, NoFaults).response
              && Get(t, path, now, failing).table == t
              && Get(t, path, now, NoFaults).table != t
  {
  }

  /** The visibility flags are stored but never reach the reader: two tables that
      differ only in the flags of the letter read give the same response. */
  lemma ReadIgnoresVisibilityFlags(t: Table, id: string, anonymous: bool, public: bool, now: int, faults: StoreFaults)
    requires id in t
    ensures var u := t[id := t[id].(isAnonymous := anonymous, isPublic := public)];
            Get(u, Path(id), now, faults).response == Get(t, Path(id), now, faults).response
  {
  }

  /** A POST whose event has no `body` key is refused for missing fields and changes nothing. */
  lemma PostWithoutBodyIsRefused(t: Table, e: Event, id: string, now: int, faults: StoreFaults)
    requires ResolveMethod(e) == Some("POST") && e.body == EmptyBody
    ensures Dispatch(t, e, id, now, faults) == Outcome(CreateResponse(400, Error(MissingFields)), t)
  {
  }
}
