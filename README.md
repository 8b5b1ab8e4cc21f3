# ELEPHANT calendar relay — a Dafny model

ELEPHANT is a relay for calendar subscriptions. A client asks for
`GET /?cal=<url>`. The relay checks the URL against an origin allowlist,
fetches the remote ICS calendar, rewrites a few calendar-level fields
(the `NAME` gets the prefix `Elephant `, the display name `X-WR-CALNAME`
copies it, `URL` points at the project, the refresh interval becomes 30
minutes) and applies literal find/replace pairs to the serialised text.
Every abort (404, 403 or 500) is answered with a one-event "error calendar"
sent with wire status 200, the real status going into the `X-HTTP-CODE`
header, because calendar clients cannot show an error page. Exceptions that
are not aborts (an unparsable URL, a fetched calendar without `NAME`) escape
the route: they propagate out of the application in debug mode, which is how
`src/main.py` runs it (`APP_DEBUG` is `True` in `src/confs.py`).

The model covers `src/v0.py` and the constants of `src/confs.py`:

- `text.dfy` (`Text`): the Python string operations the code relies on —
  `"/".join`, `s[:-1]`, `upper()`, `split`, `replace` (including an empty
  `find`) and `str(n)` — with their laws.
- `confs.dfy` (`Confs`): the application name, URL and shipped allowlist.
- `allowlist.dfy` (`Allowlist`): `check_cal_url` — the verdict as a
  function, the code with its `for ... else` prefix search as a method.
- `allowlist_cases.dfy` (`AllowlistCases`): what the shipped allowlist
  admits, and the verdicts on the URLs of the unit test.
- `ical.dfy` (`Ical`): the mutable `Calendar` (case-insensitive property
  names, components), `cal_inject_headers` and the `NAME` rewrite.
- `http.dfy` (`Http`): aborts, the `Response` object, `add_http_headers`
  and `cal_errors`.
- `rewrite.dfy` (`Rewrite`): `cal_handler`, with the replacement loop.
- `api.dfy` (`Api`): `fetch_cal`, `api_v1` and one request through the error
  handler and the after-request hook (`Serve`).

The URL parser, the HTTP client, the calendar parser and the serialiser are
libraries; each is a function-typed parameter (`parseUrl`, `fetch`, `parse`,
`toIcal`; `parseUrl` gives `None` where the parser raises), so a lemma can say that a result does not depend on one of them.
`cal_errors` reads the clock twice (`datetime.today()` for the start and
again for the end of the event); the two readings are day numbers
`startDay` and `endDay` passed to `Serve` and `CalErrors`, so a midnight
between them gives the source's 366-day event (`Http.ErrorEventSpan`).

Points where the code behaves differently from what its unit test
(`src/test_main.py`), its own fallbacks or its messages suggest; the model
follows the code:

- An empty scheme list or prefix list admits everything
  (`Allowlist.EmptyRuleAdmitsAll`); it does not reject all.
- The path is not normalised. `.../sp/webcal/abc/../..` is admitted
  (`AllowlistCases.TraversalAdmitted`), although the unit test expects a 403.
  The unit test also imports `check_cal_url` from `main`, which does not
  define it.
- The path matched is the join of the segments minus its last character,
  so `/sp/webcal/abc` is checked as `/sp/webcal/ab` and the directory
  `/sp/webcal/` itself is refused (`AllowlistCases.WebcalDirectoryRejected`).
- `X-WR-CALNAME` receives the already prefixed `NAME`, so the
  `Elephant - Default Name` fallback is never used by the handler
  (`Ical.RewrittenCalname`).
- The content type sent is `text/plain; Charset=utf-8`, not a calendar type.
- A `cal` the URL parser rejects raises `URLParseError`, which nothing
  catches: it is the outcome `Uncaught`, not a 403
  (`Api.UnparsableUrlUncaught`).
- A fetched calendar without `NAME` raises `KeyError`, which the
  `except ValueError` does not catch: it is the outcome `Uncaught`, distinct
  from the parse error's 500.
- `check_cal_url` never returns `False` (it aborts), so the
  `abort(403, "Not an allowed Calendar origin")` in `api_v1` is unreachable;
  the 403 carries the message of the failed check.

## Model

| member | source | states |
|---|---|---|
| `Text.DropLast` | src/v0.py:73 | `s[:-1]` is `s` without its last character, and the empty string for the empty string |
| `Text.JoinAppend` | src/v0.py:73 | joining two non-empty segment lists puts one separator between their joins |
| `Text.Upper` | src/v0.py:139 | property names are folded to upper case character by character, keeping the length |
| `Text.Replace` | src/v0.py:129 | `s.replace(find, rep)`: for a non-empty `find` it is `rep.join(s.split(find))`; for an empty `find` it is `rep.join([""] + list(s) + [""])`, of length `len(s) + (len(s) + 1) * len(rep)` |
| `Text.ReplaceFromIsJoinOfSplit` | src/v0.py:129 | the left-to-right scan agrees with the split-then-join definition `rep.join(s.split(find))` for every non-empty `find` |
| `Text.InterleaveIsJoinOfChars` | src/v0.py:129 | an empty `find` puts `rep` before every character and after the last: the result is `rep.join([""] + list(s) + [""])` |
| `Text.ReplaceAbsent` | src/v0.py:129 | a non-empty `find` that does not occur leaves the text unchanged |
| `Text.ReplaceIdempotentWhenGone` | src/v0.py:129 | once `find` no longer occurs in the result, a second identical replace changes nothing |
| `Text.ReplaceBySelf` | src/v0.py:129 | replacing a string by itself is the identity, the empty `find` included |
| `Text.ReplaceEmptyFindLength` | src/v0.py:129 | with an empty `find` the result is `len(s) + (len(s) + 1) * len(rep)` characters long |
| `Text.NatToString` | src/v0.py:158 | `str(code)` is a non-empty run of decimal digits starting with `0` only for zero |
| `Text.DigitsValueOfNatToString` | src/v0.py:158 | the status header text reads back as the code it was written from |
| `Text.NatToStringInjective` | src/v0.py:24 | different status codes give different header values |
| `Allowlist.RebuiltPath` | src/v0.py:73 | the matched path starts with `/`, the rest is a prefix of the slash-joined segments, and it has the join's length (one character for an empty join): exactly the join's last character is lost |
| `Allowlist.VerdictOf` | src/v0.py:59-84 | host, then scheme, then path, first failure decides the reason; every rejection is 403; admitted iff the host is listed, the scheme list is empty or holds the scheme and the prefix list is empty or some prefix starts the path |
| `Allowlist.RejectionMessage` | src/v0.py:62-81 | the 403 message names the part that failed (hostname, scheme, path) and ends with the refused host, scheme or rebuilt path |
| `Allowlist.FirstMatchingPrefix` | src/v0.py:74-81 | the `for ... else` search returns the first prefix the path starts with, or reports that none does |
| `Allowlist.CheckCalUrl` | src/v0.py:59-84 | the check's code returns exactly the verdict `VerdictOf` defines |
| `Allowlist.EmptyRuleAdmitsAll` | src/v0.py:68 | a listed host whose scheme and path lists are empty admits every URL |
| `Allowlist.BelowDirectoryKeepsPrefix` | src/v0.py:73-77 | for segments `dir + rest` with a non-empty join of `rest`, the matched path starts with `/dir/` |
| `Allowlist.RebuiltPathWithDotSegments` | src/v0.py:73 | dot segments survive the rebuild: `sp/webcal/abc/../..` is matched as `/sp/webcal/abc/../.` |
| `AllowlistCases.ShippedAdmitsBelowWebcal` | src/confs.py:13-18 | any http or https URL on `campus.kit.edu` with a non-empty remainder below `/sp/webcal/` is admitted |
| `AllowlistCases.ShippedAllowedMeans` | src/confs.py:13-18 | an admitted URL is on `campus.kit.edu`, uses http or https and is matched below `/sp/webcal/` |
| `AllowlistCases.ForeignHostRejected` | src/v0.py:62-64 | any other host is refused as not whitelisted, whatever its scheme and path |
| `AllowlistCases.TestForeignHosts` | src/test_main.py:16-22 | `example.com` and `kit.edu` are refused under the schemes `abc`, `http`, `https` |
| `AllowlistCases.TestUnlistedScheme` | src/test_main.py:37 | `abc://campus.kit.edu/...` is refused for its scheme before the path is looked at |
| `AllowlistCases.TestPathsOutsideWebcal` | src/test_main.py:25-30 | the bare host and `/test` are refused for their path |
| `AllowlistCases.TestAdmitted` | src/test_main.py:39-40 | `/sp/webcal/abc` over http or https is admitted, matched as `/sp/webcal/ab` |
| `AllowlistCases.TraversalAdmitted` | src/test_main.py:33-34 | `/sp/webcal/abc/../..` is admitted, against what the test expects |
| `AllowlistCases.WebcalDirectoryRejected` | src/v0.py:73-81 | `/sp/webcal/` and `/sp/webcal` are refused, being matched as `/sp/webcal` and `/sp/webca` |
| `Ical.Injected` | src/v0.py:136-140 | injection adds exactly the display name (the `NAME` if non-empty, else the default name), `URL` = app URL and refresh `PT30M`, and keeps every other property, `NAME` included |
| `Ical.InjectedIdempotent` | src/v0.py:136-140 | injecting twice gives the same properties as injecting once |
| `Ical.Rewritten` | src/v0.py:119-121 | the handler's rewrite adds exactly the display name, `URL` = app URL and the 30-minute refresh, and keeps every property other than `NAME` and those three |
| `Ical.RewrittenCalname` | src/v0.py:119-121 | after the handler's rewrite `NAME` is `Elephant ` + the old name and the display name equals it |
| `Ical.RewriteTwicePrefixesTwice` | src/v0.py:120 | rewriting twice prefixes the name twice, so the rewrite is not idempotent |
| `Ical.NameKeysFold` | src/v0.py:137-138 | `NAME`, `X-WR-CALNAME`, `URL` are their own upper-case names |
| `Ical.RefreshKeyFolds` | src/v0.py:139 | the mixed-case `REFRESH-INTERVAl;VALUE=DURATION` lands on the upper-case key |
| `Ical.Calendar.constructor` | src/v0.py:150 | a new calendar has no properties and no components |
| `Ical.Calendar.FromData` | src/v0.py:119 | the mutable calendar holds exactly the parsed calendar |
| `Ical.Calendar.Set` | src/v0.py:137-139 | item assignment stores the value under the upper-cased name and changes nothing else |
| `Ical.Calendar.Get` | src/v0.py:120 | item lookup is case-insensitive and reports a missing name instead of a value |
| `Ical.Calendar.AddComponent` | src/v0.py:152 | the component is appended after the existing ones |
| `Ical.Calendar.PrefixName` | src/v0.py:120 | with `NAME` present it becomes `Elephant ` + old name; without it nothing changes and failure is reported |
| `Ical.Calendar.InjectHeaders` | src/v0.py:136-140 | the properties become `Injected` of the old ones; the components are unchanged |
| `Http.Abort` | src/v0.py:44 | an abort carries the given code and description |
| `Http.NormalizedHeaders` | src/v0.py:19-25 | the content type is always `text/plain; Charset=utf-8`; an existing status header is kept, otherwise it is the status; other headers are kept |
| `Http.NormalizedHeadersStable` | src/v0.py:23-24 | a second normalisation with any status changes nothing: first writer wins |
| `Http.Response.constructor` | src/v0.py:155-157 | a new response has the given body and status and no headers |
| `Http.Response.SetHeader` | src/v0.py:158 | one header is set, status and body unchanged |
| `Http.Response.AddHttpHeaders` | src/v0.py:19-25 | the headers become `NormalizedHeaders` of the old headers and status |
| `Http.ErrorEvent` | src/v0.py:144-148 | the `VEVENT` has exactly four properties: it starts on the first clock reading, ends 365 days after the second, has summary `Elephant, <code> - <name>` and the error's description |
| `Http.ErrorEventSpan` | src/v0.py:145-146 | with both readings on the same day the event lasts 365 days; with a midnight between them, 366 |
| `Http.ErrorCalendar` | src/v0.py:144-153 | an error calendar has that one event as its only component, `NAME` and display name `Elephant Error`, the app URL and the 30-minute refresh, and no other property |
| `Http.CalErrors` | src/v0.py:143-159 | the response is the error calendar with wire status 200 and the error's code as its only header |
| `Http.ErrorCodeSurvivesHook` | src/v0.py:158 | after the hook an error response still reports its own code, readable as that number |
| `Rewrite.ApplyAll` | src/v0.py:127-131 | the pairs applied first to last; a list in which no pair has length 2 leaves the text unchanged |
| `Rewrite.ApplyReplacements` | src/v0.py:127-131 | the loop yields the pairs applied first to last, pairs not of length 2 skipped |
| `Rewrite.ApplyAllAppend` | src/v0.py:127-131 | pairs apply in list order: a list acts as its first part followed by its second |
| `Rewrite.MalformedPairSkipped` | src/v0.py:128-131 | a pair whose length is not 2 changes nothing and does not stop the later pairs |
| `Rewrite.AbsentPairsKeepText` | src/v0.py:127-131 | skipped pairs and pairs whose non-empty `find` is absent leave the text unchanged; the empty list is the identity |
| `Rewrite.HandledCal` | src/v0.py:108-133 | `cal_handler`'s result: a 500 abort exactly when parsing fails, an uncaught `KeyError` exactly when the parsed calendar has no `NAME`, the rewritten text otherwise |
| `Rewrite.CalHandler` | src/v0.py:108-133 | the handler on the mutable calendar yields what `HandledCal` defines |
| `Rewrite.HandledCalCases` | src/v0.py:118-133 | a finished rewrite is the serialised calendar with prefixed `NAME`, equal display name and untouched components, then the pairs |
| `Rewrite.NoReplacementsSendSerialised` | src/v0.py:104-105 | with the always-empty replacement list the body is exactly the serialised rewritten calendar |
| `Api.AnswerOk` | src/v0.py:91 | `r.ok` holds for statuses below 400 and fails for every 4xx and 5xx status |
| `Api.FetchCal` | src/v0.py:87-100 | the text is passed on iff the request succeeded with a status outside 400-599; every failure is 500 |
| `Api.RouteOutcome` | src/v0.py:36-55 | `api_v1`'s result: every abort is 403, 404 or 500, and a calendar is produced only for a non-empty `cal` that parses to a URL the allowlist admits |
| `Api.ApiV1` | src/v0.py:36-55 | the route's code yields what `RouteOutcome` defines |
| `Api.MissingCalNotFound` | src/v0.py:41-44 | a missing or empty `cal` gives 404 whatever the URL, allowlist, fetch or calendar |
| `Api.RejectedNeverFetched` | src/v0.py:46-49 | a refused URL gives 403 with the check's message, independent of fetch, parser, serialiser and replacements |
| `Api.FetchFailureIsServerError` | src/v0.py:49 | a failed fetch of an admitted URL gives 500 and the calendar is never parsed |
| `Api.DoneOnlyAfterChecks` | src/v0.py:41-55 | a calendar is sent only for a non-empty `cal`, an admitted URL and a successful fetch, and it is the rewritten, serialised calendar with the pairs applied |
| `Api.UnparsableUrlUncaught` | src/v0.py:61 | a non-empty `cal` that the URL parser rejects ends in an uncaught exception, whatever the allowlist and later stages |
| `Api.Serve` | src/v0.py:19-55 | every handled request answers with wire status 200 and content type set; a calendar carries `X-HTTP-CODE: 200`, an abort the error calendar and its own code; an uncaught exception gives no modelled response |

## Left out

- `hyperlink.parse`, `requests.get` (with `apparent_encoding` decoding), `Calendar.from_ical` and `to_ical` are foreign libraries: they are parameters, and the serialised text is never inspected.
- Logging calls, the Flask blueprint registration and `make_response` details are framework plumbing; aborts are result values instead of exceptions.
- Api.Serve: an exception the route does not catch (the `URLParseError` of an unparsable URL, the `KeyError` of a calendar without `NAME`) propagates out of the application in debug mode, as `src/main.py` runs it; the framework's answer to it is not modelled and the method returns `null`. With propagation off the framework would wrap it in a 500 that the error handler answers; that mode is not modelled.
- Http.Response.constructor: the headers the framework adds by itself (`Content-Length`, its default content type) are not modelled; the response starts with no headers.
- Http.Abort: reason phrases are modelled only for 403, 404 and 500, the only codes the relay aborts with (`Api.RouteOutcome` proves it); werkzeug's other codes are not modelled.
- Http.NormalizedHeaders: header names are matched case-sensitively, where werkzeug's `Headers` ignores case; the relay only ever writes the exact spellings `Content-Type` and `X-HTTP-CODE`, so no difference is reachable.
- Text.Upper: only ASCII letters are folded; Python's full Unicode upper-casing is not modelled.
- Ical.Calendar.Set: `add` on a fresh calendar or event is modelled as assignment; `add` on an existing name (which makes a list) is never used by the relay.
- Calendar property values are strings and event dates are day numbers; the library's typed values are not modelled.
- `get_replacement_list` is a stub returning an empty list; the replacement list is a parameter.
- `add_http_headers`'s `filename` parameter and the commented-out `Content-Disposition` header do nothing; its `content_type` is fixed at the default the hook uses.
- `src/main.py` (application setup, log handler, banner, landing page), `src/test_ics_host_server.py` and `test_host/` are not part of this model.
