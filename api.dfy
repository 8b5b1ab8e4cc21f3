/** The route `GET /?cal=<url>` and the framework hooks around it: the
    missing-parameter check, the allowlist check, the fetch and the rewrite in
    that order, every abort turned into an error calendar, and the header
    normaliser applied to whatever is sent. */
module Api {
  import opened Text
  import opened Allowlist
  import opened Ical
  import opened Http
  import opened Rewrite

  /** What `requests.get` did: an answer with its status and decoded text,
      or a `RequestException` (DNS, TLS, refused connection, ...). */
  datatype FetchOutcome = Answered(statusCode: nat, text: string) | RequestException

  /** `r.ok`: `raise_for_status` raises for the 4xx and 5xx statuses only. */
  predicate AnswerOk(statusCode: nat): (ok: bool)
    ensures statusCode < 400 ==> ok
    ensures 400 <= statusCode < 500 ==> !ok
    ensures 500 <= statusCode < 600 ==> !ok
  {
    !(400 <= statusCode < 600)
  }

  const NoCalMessage: string := "No Calendar URL in query string found"
  const FetchErrorMessage: string := "There has been an error while fetching the Calendar"

  /** `fetch_cal`: the fetched text, or a 500 whose message carries the
      upstream status; the upstream status is never passed through. */
  function FetchCal(f: FetchOutcome): (o: Outcome)
    ensures o.Done? <==> f.Answered? && AnswerOk(f.statusCode)
    ensures o.Done? ==> o.text == f.text
    ensures o.Aborted? ==> o.error.code == 500
    ensures !o.Uncaught?
  {
    match f
    case RequestException => Aborted(Abort(500, FetchErrorMessage))
    case Answered(status, text) =>
      if AnswerOk(status) then Done(text)
      else Aborted(Abort(500, "Couldn't fetch the calendar, HTTP status code " + NatToString(status)))
  }

  /** The ending of `api_v1` for the query parameter `cal` (`None` when it is
      absent), with the URL parser (`None` where it raises `URLParseError`,
      which nothing catches), the fetch, the calendar parser and
      serialiser as the libraries behave for this request. */
  function RouteOutcome(cal: Option<string>, parseUrl: string -> Option<Url>, wl: Whitelist,
                        fetch: string -> FetchOutcome, parse: string -> ParseOutcome,
                        toIcal: CalData -> string, replacements: seq<Pair>): (o: Outcome)
    ensures o.Aborted? ==> KnownCode(o.error.code)
    ensures o.Done? ==>
      cal.Some? && cal.value != "" && parseUrl(cal.value).Some?
      && VerdictOf(parseUrl(cal.value).value, wl) == Allowed
  {
    if cal.None? || cal.value == "" then Aborted(Abort(404, NoCalMessage))
    else if parseUrl(cal.value).None? then Uncaught
    else
      var url := parseUrl(cal.value).value;
      var v := VerdictOf(url, wl);
      if v.Rejected? then Aborted(Abort(403, RejectionMessage(v.reason, url)))
      else
        var fetched := FetchCal(fetch(cal.value));
        if fetched.Done? then HandledCal(fetched.text, parse, toIcal, replacements) else fetched
  }

  /** `api_v1`. */
  method ApiV1(cal: Option<string>, parseUrl: string -> Option<Url>, wl: Whitelist,
               fetch: string -> FetchOutcome, parse: string -> ParseOutcome,
               toIcal: CalData -> string, replacements: seq<Pair>) returns (o: Outcome)
    ensures o == RouteOutcome(cal, parseUrl, wl, fetch, parse, toIcal, replacements)
  {
    if cal.None? || cal.value == "" {
      return Aborted(Abort(404, NoCalMessage));
    }
    var parsed := parseUrl(cal.value);
    if parsed.None? {
      return Uncaught;
    }
    var url := parsed.value;
    var v := CheckCalUrl(url, wl);
    if v.Rejected? {
      return Aborted(Abort(403, RejectionMessage(v.reason, url)));
    }
    var fetched := FetchCal(fetch(cal.value));
    if !fetched.Done? {
      return fetched;
    }
    o := CalHandler(fetched.text, parse, toIcal, replacements);
  }

  /** A missing or empty `cal` gives 404 before anything else is looked at. */
  lemma MissingCalNotFound(cal: Option<string>, parseUrl: string -> Option<Url>, wl: Whitelist,
                           fetch: string -> FetchOutcome, parse: string -> ParseOutcome,
                           toIcal: CalData -> string, replacements: seq<Pair>)
    requires cal.None? || cal.value == ""
    ensures RouteOutcome(cal, parseUrl, wl, fetch, parse, toIcal, replacements)
      == Aborted(HttpError(404, "Not Found", NoCalMessage))
  {
  }

  /** A URL the allowlist refuses gives 403 with the check's message, and the
      result does not depend on the fetch, the parser, the serialiser or the
      replacements: nothing is fetched. */
  lemma RejectedNeverFetched(cal: Option<string>, parseUrl: string -> Option<Url>, wl: Whitelist,
                             fetch: string -> FetchOutcome, parse: string -> ParseOutcome,
                             toIcal: CalData -> string, replacements: seq<Pair>,
                             fetch': string -> FetchOutcome, parse': string -> ParseOutcome,
                             toIcal': CalData -> string, replacements': seq<Pair>)
    requires cal.Some? && cal.value != "" && parseUrl(cal.value).Some?
    requires VerdictOf(parseUrl(cal.value).value, wl).Rejected?
    ensures var o := RouteOutcome(cal, parseUrl, wl, fetch, parse, toIcal, replacements);
      o == RouteOutcome(cal, parseUrl, wl, fetch', parse', toIcal', replacements')
      && o.Aborted? && o.error.code == 403 && o.error.name == "Forbidden"
      && o.error.description == RejectionMessage(VerdictOf(parseUrl(cal.value).value, wl).reason, parseUrl(cal.value).value)
  {
  }

  /** A failed fetch of an admitted URL gives 500 and the calendar parser,
      serialiser and replacements are never consulted. */
  lemma FetchFailureIsServerError(cal: Option<string>, parseUrl: string -> Option<Url>, wl: Whitelist,
                                  fetch: string -> FetchOutcome, parse: string -> ParseOutcome,
                                  toIcal: CalData -> string, replacements: seq<Pair>,
                                  parse': string -> ParseOutcome, toIcal': CalData -> string,
                                  replacements': seq<Pair>)
    requires cal.Some? && cal.value != "" && parseUrl(cal.value).Some?
    requires VerdictOf(parseUrl(cal.value).value, wl) == Allowed
    requires fetch(cal.value).RequestException? || !AnswerOk(fetch(cal.value).statusCode)
    ensures var o := RouteOutcome(cal, parseUrl, wl, fetch, parse, toIcal, replacements);
      o == RouteOutcome(cal, parseUrl, wl, fetch, parse', toIcal', replacements')
      && o.Aborted? && o.error.code == 500
  {
  }

  /** A calendar is sent only after both checks passed and the fetch
      succeeded, and it is the rewritten calendar, serialised, with the
      replacements applied. */
  lemma DoneOnlyAfterChecks(cal: Option<string>, parseUrl: string -> Option<Url>, wl: Whitelist,
                            fetch: string -> FetchOutcome, parse: string -> ParseOutcome,
                            toIcal: CalData -> string, replacements: seq<Pair>)
    requires RouteOutcome(cal, parseUrl, wl, fetch, parse, toIcal, replacements).Done?
    ensures cal.Some? && cal.value != "" && parseUrl(cal.value).Some?
    ensures VerdictOf(parseUrl(cal.value).value, wl) == Allowed
    ensures fetch(cal.value).Answered? && AnswerOk(fetch(cal.value).statusCode)
    ensures var text := fetch(cal.value).text;
      parse(text).Parsed? && NameKey in parse(text).cal.props
      && RouteOutcome(cal, parseUrl, wl, fetch, parse, toIcal, replacements).text
         == ApplyAll(toIcal(RewrittenCal(parse(text).cal)), replacements)
  {
    var fetched := FetchCal(fetch(cal.value));
    HandledCalCases(fetched.text, parse, toIcal, replacements);
  }

  /** A `cal` the URL parser cannot parse raises past the error handler,
      whatever the allowlist and the later stages are. */
  lemma UnparsableUrlUncaught(cal: Option<string>, parseUrl: string -> Option<Url>, wl: Whitelist,
                              fetch: string -> FetchOutcome, parse: string -> ParseOutcome,
                              toIcal: CalData -> string, replacements: seq<Pair>)
    requires cal.Some? && cal.value != "" && parseUrl(cal.value).None?
    ensures RouteOutcome(cal, parseUrl, wl, fetch, parse, toIcal, replacements) == Uncaught
  {
  }

  /** One request through the framework: the route, then the error handler
      for an abort, then the after-request hook. The response is `null` for
      an exception the route does not catch (an unparsable URL, a calendar
      without `NAME`), which the application, run in debug mode, propagates.
      `startDay` and `endDay` are the clock's two
      readings in `cal_errors`. Every response has wire
      status 200; the logical status is in the status header. */
  method Serve(cal: Option<string>, parseUrl: string -> Option<Url>, wl: Whitelist,
               fetch: string -> FetchOutcome, parse: string -> ParseOutcome,
               toIcal: CalData -> string, replacements: seq<Pair>,
               startDay: int, endDay: int)
    returns (resp: Response?)
    ensures var o := RouteOutcome(cal, parseUrl, wl, fetch, parse, toIcal, replacements);
      (resp == null <==> o.Uncaught?)
      && (o.Done? ==>
            resp != null && fresh(resp) && resp.status == 200 && resp.body == Raw(o.text)
            && resp.headers == map[ContentTypeHeader := ContentTypeValue, HttpCodeHeader := "200"])
      && (o.Aborted? ==>
            resp != null && fresh(resp) && resp.status == 200
            && resp.body == CalendarOf(ErrorCalendar(o.error, startDay, endDay))
            && resp.headers == map[HttpCodeHeader := NatToString(o.error.code), ContentTypeHeader := ContentTypeValue])
  {
    var o := ApiV1(cal, parseUrl, wl, fetch, parse, toIcal, replacements);
    match o
    case Done(text) =>
      resp := new Response(Raw(text), 200);
      resp.AddHttpHeaders();
      assert NatToString(200) == "200";
    case Aborted(e) =>
      resp := CalErrors(e, startDay, endDay);
      resp.AddHttpHeaders();
    case Uncaught =>
      resp := null;
  }
}
