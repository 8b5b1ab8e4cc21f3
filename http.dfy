/** The HTTP side of the relay: the aborts the pipeline raises, the response
    object, the header normaliser run after every request and the error
    calendar that replaces every error page. */
module Http {
  import opened Text
  import opened Confs
  import opened Ical

  const HttpCodeHeader: string := "X-HTTP-CODE"
  const ContentTypeHeader: string := "Content-Type"
  const DefaultContentType: string := "text/plain"
  const ContentTypeValue: string := DefaultContentType + "; Charset=utf-8"

  /** An `HTTPException` raised by `abort(code, description)`. */
  datatype HttpError = HttpError(code: nat, name: string, description: string)

  /** How a request ends inside the route: a calendar text to send, an abort,
      or an exception that is not an `HTTPException` (the `KeyError` raised
      when a fetched calendar has no `NAME`). */
  datatype Outcome = Done(text: string) | Aborted(error: HttpError) | Uncaught

  predicate KnownCode(code: nat)
  {
    code == 403 || code == 404 || code == 500
  }

  /** The standard reason phrase of each status the relay aborts with. */
  function StatusName(code: nat): string
    requires KnownCode(code)
  {
    if code == 403 then "Forbidden" else if code == 404 then "Not Found" else "Internal Server Error"
  }

  function Abort(code: nat, description: string): (e: HttpError)
    requires KnownCode(code)
    ensures e.code == code && e.description == description
  {
    HttpError(code, StatusName(code), description)
  }

  /** A response body: text, or a calendar left to `to_ical` to serialise. */
  datatype Body = Raw(text: string) | CalendarOf(cal: CalData)

  /** The headers after `add_http_headers`: the content type is always set,
      the status header only when no earlier stage set it. */
  function NormalizedHeaders(headers: map<string, string>, status: nat): (r: map<string, string>)
    ensures r.Keys == headers.Keys + {ContentTypeHeader, HttpCodeHeader}
    ensures r[ContentTypeHeader] == ContentTypeValue
    ensures HttpCodeHeader in headers ==> r[HttpCodeHeader] == headers[HttpCodeHeader]
    ensures HttpCodeHeader !in headers ==> r[HttpCodeHeader] == NatToString(status)
    ensures forall k :: k in headers && k != ContentTypeHeader && k != HttpCodeHeader ==> r[k] == headers[k]
  {
    var typed := headers[ContentTypeHeader := ContentTypeValue];
    if HttpCodeHeader in typed then typed else typed[HttpCodeHeader := NatToString(status)]
  }

  /** The status header is written once: normalising again, whatever the
      status then, changes nothing. */
  lemma NormalizedHeadersStable(headers: map<string, string>, status: nat, later: nat)
    ensures NormalizedHeaders(NormalizedHeaders(headers, status), later) == NormalizedHeaders(headers, status)
  {
  }

  /** The response object the handlers build and the after-request hook edits. */
  class Response {
    var status: nat
    var headers: map<string, string>
    var body: Body

    /** `make_response(body, status)`. */
    constructor (body: Body, status: nat)
      ensures this.body == body && this.status == status && headers == map[]
    {
      this.body := body;
      this.status := status;
      headers := map[];
    }

    /** `resp.headers[name] = value`. */
    method SetHeader(name: string, value: string)
      modifies this
      ensures headers == old(headers)[name := value]
      ensures status == old(status) && body == old(body)
    {
      headers := headers[name := value];
    }

    /** `add_http_headers` with its default content type. */
    method AddHttpHeaders()
      modifies this
      ensures headers == NormalizedHeaders(old(headers), old(status))
      ensures status == old(status) && body == old(body)
    {
      SetHeader(ContentTypeHeader, ContentTypeValue);
      if HttpCodeHeader !in headers {
        SetHeader(HttpCodeHeader, NatToString(status));
      }
    }
  }

  const ErrorCalendarName: string := AppName + " Error"
  const YearOfDays: int := 365

  /** The one event of an error calendar. The clock is read twice: the
      event starts on the day of the first reading and ends 365 days after
      the day of the second; its summary and description carry the error. */
  function ErrorEvent(e: HttpError, startDay: int, endDay: int): (ev: Component)
    ensures ev.kind == "VEVENT"
    ensures ev.props.Keys == {"DTSTART", "DTEND", "SUMMARY", "DESCRIPTION"}
    ensures ev.props["DTSTART"] == Day(startDay)
    ensures ev.props["DTEND"] == Day(endDay + 365)
    ensures ev.props["SUMMARY"] == Txt("Elephant, " + NatToString(e.code) + " - " + e.name)
    ensures ev.props["DESCRIPTION"] == Txt(e.description)
  {
    assert AppName + ", " == "Elephant, ";
    Component("VEVENT", map[
      "DTSTART" := Day(startDay),
      "DTEND" := Day(endDay + YearOfDays),
      "SUMMARY" := Txt(AppName + ", " + NatToString(e.code) + " - " + e.name),
      "DESCRIPTION" := Txt(e.description)])
  }

  /** Two readings taken in the same day give an event of exactly 365 days;
      a midnight between them stretches it to 366. */
  lemma ErrorEventSpan(e: HttpError, startDay: int, endDay: int)
    requires startDay <= endDay <= startDay + 1
    ensures var ev := ErrorEvent(e, startDay, endDay);
      ev.props["DTEND"].day - ev.props["DTSTART"].day == if endDay == startDay then 365 else 366
  {
  }

  /** The calendar `cal_errors` sends in place of an error page. */
  function ErrorCalendar(e: HttpError, startDay: int, endDay: int): (c: CalData)
    ensures c.components == [ErrorEvent(e, startDay, endDay)]
    ensures c.props.Keys == {NameKey, CalnameKey, UrlKey, RefreshKey}
    ensures c.props[NameKey] == ErrorCalendarName && c.props[CalnameKey] == ErrorCalendarName
    ensures c.props[UrlKey] == AppUrl && c.props[RefreshKey] == RefreshEvery
  {
    CalData(Injected(map[NameKey := ErrorCalendarName]), [ErrorEvent(e, startDay, endDay)])
  }

  /** `cal_errors`: the error calendar, sent with wire status 200 and the
      abort's own code in the status header. */
  method CalErrors(e: HttpError, startDay: int, endDay: int) returns (resp: Response)
    ensures fresh(resp)
    ensures resp.status == 200
    ensures resp.body == CalendarOf(ErrorCalendar(e, startDay, endDay))
    ensures resp.headers == map[HttpCodeHeader := NatToString(e.code)]
  {
    var ev: map<string, Value> := map[];
    ev := ev["DTSTART" := Day(startDay)];
    ev := ev["DTEND" := Day(endDay + YearOfDays)];
    ev := ev["SUMMARY" := Txt(AppName + ", " + NatToString(e.code) + " - " + e.name)];
    ev := ev["DESCRIPTION" := Txt(e.description)];

    var cal := new Calendar();
    NameKeysFold();
    cal.Set("NAME", ErrorCalendarName);
    cal.AddComponent(Component("VEVENT", ev));
    cal.InjectHeaders();

    resp := new Response(CalendarOf(cal.Data()), 200);
    resp.SetHeader(HttpCodeHeader, NatToString(e.code));
  }

  /** After the hook an error response still reports the abort's code, which
      reads back as that number, while the wire status stays 200. */
  lemma ErrorCodeSurvivesHook(e: HttpError)
    ensures var h := NormalizedHeaders(map[HttpCodeHeader := NatToString(e.code)], 200);
      AllDigits(h[HttpCodeHeader]) && DigitsValue(h[HttpCodeHeader]) == e.code
      && h[ContentTypeHeader] == ContentTypeValue
  {
    DigitsValueOfNatToString(e.code);
  }
}
