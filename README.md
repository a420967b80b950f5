# PyHtmlToPDF (UtilityHub) in Dafny

A Dafny model of the core of UtilityHub, a FastAPI service that turns web
pages and HTML into PDF documents with a headless browser, plus its small
system API and service registry.

- `pdf_service.dfy` (module `PdfService`) models `PDFService`. It covers
  request-id selection, the default render options and their shallow merge
  with a caller's options, and the browser session: enter the Playwright
  context, launch, open a page, navigate or set content, wait for
  `networkidle`, render, close the browser, leave the context. It also
  covers the log records written along the way and the re-raise of any
  exception. The browser is a scripted `Engine` value that answers each call
  normally or with an exception message. A conversion returns its result and
  a trace of the engine calls it made and the log records it wrote, in order.
  The trace is proved equal to the closed form `SessionTrace`, whose calls
  and exception are proved against the specification functions
  `SessionCalls` and `SessionError`.
- `pdf_api.dfy` (module `PdfApi`) models the two PDF endpoints. Each takes
  the request id from the `X-Request-ID` header or a fresh uuid and calls the
  service. Success becomes an `application/pdf` attachment named
  `webpage.pdf` or `document.pdf`. Any exception becomes HTTP 500 with the
  detail `PDF conversion failed: <message>`.
- `service_registry.dfy` (module `Registry`) models the `ServiceInfo` record
  and the `ServiceRegistry` class. The class keeps a `seq` of names in
  first-registration order and a `map` from name to record, and its
  invariant `Valid()` ties the two together.
- `system_api.dfy` (module `SystemApi`) models the system endpoints:
  `health`, `info`, `services`, and the log query. The log query filters the
  log file's lines by request id, takes `lines[-limit:]`, strips each line
  and drops blank ones. It also relates the line format of the file handler
  to the filter.
- `text.dfy` (module `Text`) models Python's `sub in s` and `str.strip()`.
  `seqs.dfy` (module `Seqs`) models list comprehensions with a condition.
  `wrappers.dfy` holds `Option`/`Result`, and `http.dfy` the `HttpError` of
  an `HTTPException`.

Points where the code does something a reader may not expect:

- The option merge is the code's top-level `{**defaults, **options}`. A
  caller's `margin` replaces the whole default margin; it is not merged side
  by side.
- `browser.close()` is called only after `page.pdf` succeeded. The
  unconditional teardown is leaving the `async with async_playwright()`
  block. If close or that exit raises, a successful render still becomes a
  failure. An exception raised while leaving the block replaces the one in
  flight.
- The HTTP failure detail is `"PDF conversion failed: " + str(e)`. It
  carries neither the request id nor an error kind. The code has no error
  taxonomy beyond exception messages.
- Log lines are written before launching, before loading and before
  rendering, plus a start line and a completion or failure line. Steps are
  not logged both before and after.
- `get_logs` returns entries `{timestamp, raw_log}` holding the stripped
  text line, not structured records. Because `-0 == 0`, `limit == 0` returns
  every line.

## Model

| member | source | states |
|---|---|---|
| PdfService.ChooseRequestId | app/services/pdf_service.py:31 | The id is the supplied one when it is present and non-empty, and the fresh one otherwise. A uuid-shaped fresh id makes the id non-empty. The same choice is made at line 71. |
| PdfService.ResolveOptions | app/services/pdf_service.py:32 | With no options the result is the defaults. Otherwise its keys are the union of both key sets, every caller key maps to the caller's value, and every other default key keeps its default. The same merge is made at line 72. |
| PdfService.ResolveWithoutOverrides | app/services/pdf_service.py:17-27 | With no options, the resolved options are exactly `format` A4, a 1cm margin on all four sides, `print_background` true and `prefer_css_page_size` true. `None` and `{}` resolve alike. |
| PdfService.MarginOverrideReplacesWholeMargin | app/services/pdf_service.py:32 | A caller margin with only `top` yields a margin holding only `top`, because the merge is shallow. The other defaults stay. |
| PdfService.ResolveIdempotent | app/services/pdf_service.py:32 | Merging the resolved options into the defaults again changes nothing. |
| PdfService.FirstFailure | app/services/pdf_service.py:40-52 | The index of the first planned step that raises: every earlier step answers normally and that step raises. |
| PdfService.Record | app/services/pdf_service.py:34-38 | A log record carries the request id in `extra["request_id"]`, and its message `Request <id>: ...` contains the id. |
| PdfService.RunSteps | app/services/pdf_service.py:41-52 | The body of the `async with` block writes the trace `BlockTrace`: the launch, load and render stretches, each a log line and its two calls, stopping at the first call that raises. It reports that call's exception. |
| PdfService.BlockMatchesPlan | app/services/pdf_service.py:41-52 | Stretch by stretch, the block calls exactly the planned steps up to and including the first that raises, and all six when none raises. |
| PdfService.BlockErrorIsFirstFailure | app/services/pdf_service.py:41-52 | The block raises the exception of the first planned step that raises, and nothing when none does. |
| PdfService.SessionLogsAnnounceSteps | app/services/pdf_service.py:42-50 | In a session, a record is written exactly before launching ("Launching browser"), before navigating or setting the content ("Navigating to URL" or "Setting HTML content", lines 46 and 86) and before rendering ("Generating PDF"). Each such call comes straight after its record, and no other record appears. |
| PdfService.SessionTraceCalls | app/services/pdf_service.py:41-52 | The session trace makes exactly the calls of `SessionCalls`. |
| PdfService.SessionTraceFacts | app/services/pdf_service.py:41-52 | The session trace makes the calls of `SessionCalls`, and every record in it carries the request id. |
| PdfService.SessionErrorByStage | app/services/pdf_service.py:41-67 | A session raises the exception of entering the context, else that of leaving it, which replaces any in flight, else the block's. |
| PdfService.RunSession | app/services/pdf_service.py:41-59 | The trace is `SessionTrace`, with its step announcements, and its engine calls are `SessionCalls`. The result fails exactly when `SessionError` is set, and then with its message. On success the result is the bytes `page.pdf` produced. Every record carries the id. |
| PdfService.Convert | app/services/pdf_service.py:29-67 | The calls are the session's. The result is the rendered bytes exactly when nothing raised, and otherwise the same exception message, re-raised. The first record announces the start with the merged options before any engine call. The last record reports the byte count or the error. Between the two lies the session trace. Every record carries the request id. |
| PdfService.ConvertUrlToPdf | app/services/pdf_service.py:29-67 | All of `Convert`'s promises for a URL. Also, the URL flow never sets content, and only navigates to the given URL. |
| PdfService.ConvertHtmlToPdf | app/services/pdf_service.py:69-107 | All of `Convert`'s promises for HTML. Also, the HTML flow never navigates, and only sets the given markup. |
| PdfService.SessionCallsInOrder | app/services/pdf_service.py:41-52 | The calls come in protocol order, each at most once: enter, launch, new page, load, wait, render, close, exit. |
| PdfService.UrlSessionNeverSetsContent | app/services/pdf_service.py:43-52 | No URL session calls `set_content`, and every `goto` is to the requested URL. |
| PdfService.HtmlSessionNeverNavigates | app/services/pdf_service.py:83-92 | No HTML session calls `goto`, and every `set_content` is given the requested HTML. |
| PdfService.ContextAlwaysLeft | app/services/pdf_service.py:41 | Once the Playwright context is entered, leaving it is the last call, made exactly once, whichever step raised. |
| PdfService.CloseOnlyAfterRender | app/services/pdf_service.py:51-52 | `browser.close()` is called if and only if entering and the five steps before it all answered normally. A session that closes the browser has rendered the PDF. |
| PdfService.SessionSucceedsIff | app/services/pdf_service.py:40-67 | A conversion raises nothing exactly when every call it plans answers normally, including the explicit close and the context exit. |
| PdfService.SessionErrorComesFromACall | app/services/pdf_service.py:61-67 | The exception a conversion re-raises is the answer to a call it actually made. |
| PdfApi.HandlerIdIsServiceId | app/api/v1/pdf.py:23 | The service keeps the id the handler chose, so the id in the log lines is the handler's. |
| PdfApi.ConvertedIsAnswered | app/api/v1/pdf.py:25-39 | A conversion run under the handler's id and answered by the try/except mapping meets the handler contract `Answered`. |
| PdfApi.ConvertUrlEndpoint | app/api/v1/pdf.py:16-39 | The response succeeds exactly when the session raised nothing. Success is the engine's bytes as `application/pdf` with `attachment; filename=webpage.pdf`. Otherwise the response is HTTP 500 with `PDF conversion failed: ` and the message. The options and URL reach the service unchanged. Every log line carries the header id or the fresh uuid. The log opens with the start line and closes with the completion or failure line, with the session's trace between them. Content is never set. |
| PdfApi.ConvertHtmlEndpoint | app/api/v1/pdf.py:41-64 | As for the URL endpoint, with `document.pdf` and the HTML flow. Navigation never happens. |
| Registry.ServiceInfoDefaults | app/core/service_registry.py:15-16 | A record built without `status` or `dependencies` is active and has no dependencies. |
| Registry.ServiceRegistry.constructor | app/core/service_registry.py:21-42 | A fresh registry holds exactly "PDF Conversion" and then "System Management", with their records. Both records are active. |
| Registry.ServiceRegistry.RegisterService | app/core/service_registry.py:44-46 | The name maps to the new record. A new name is appended to the order, and a known name keeps its place, with its record replaced and no entry added. Every other lookup is unchanged, and the invariant is kept. |
| Registry.ServiceRegistry.GetService | app/core/service_registry.py:48-50 | A registered name gives its record, whose name is that name. An unknown name gives None. |
| Registry.ServiceRegistry.ListServices | app/core/service_registry.py:52-54 | Every record once, in first-registration order. There are as many as there are distinct registered names. |
| Registry.ServiceRegistry.GetActiveServices | app/core/service_registry.py:56-58 | A subsequence of the listing that holds only active records and every active record, without repeats. |
| Registry.ServiceRegistry.GetServiceEndpoints | app/core/service_registry.py:60-62 | The keys are exactly the registered names, and each maps to that service's endpoint list. |
| Registry.ServiceRegistry.GetAllEndpoints | app/core/service_registry.py:64-69 | The endpoint lists of the listed services, concatenated in registration order. |
| Registry.ExtendAll | app/core/service_registry.py:66-69 | The `extend` loop builds exactly the concatenation of the endpoint lists. |
| Registry.EndpointsSpec | app/core/service_registry.py:64-69 | The concatenation is as long as all the lists together. It holds every endpoint of every service and nothing else. |
| Registry.ServiceRegistry.AllEndpointsSpec | app/core/service_registry.py:64-69 | `get_all_endpoints` holds exactly the endpoints of the registered services, and its length is the sum of their counts. |
| SystemApi.HealthCheck | app/api/v1/system.py:17-26 | The status is always "healthy", with the platform's name, version and description, and the clock's reading as the timestamp. |
| SystemApi.ServiceInfoReport | app/api/v1/system.py:28-56 | One summary per active service, in registry order, and all of them active. `total_services` is their count. `platform_features` is the fixed list of five features. `all_endpoints` holds the endpoints of all registered services, active or not. |
| SystemApi.ListServices | app/api/v1/system.py:58-77 | One entry per registered service in registration order. `total` is the number of registered names and `active` the number of active records. `dependencies` is the record's list, or empty when it has none. |
| SystemApi.Filtered | app/api/v1/system.py:92-94 | With a non-empty id, the result is exactly the lines containing it, each as often as in the file and in file order. With no id or an empty one, it is all lines. |
| SystemApi.TakeLast | app/api/v1/system.py:96-97 | `lines[-limit:]`: for 0 < limit ≤ n the last `limit` lines; all lines for limit ≥ n and for limit = 0; for a negative limit, all lines but the first \|limit\|. |
| SystemApi.StrippedLogsLength | app/api/v1/system.py:99-105 | There are never more entries than lines. |
| SystemApi.StrippedLogsSound | app/api/v1/system.py:99-105 | Every entry is non-empty, already stripped, and the stripped form of some line. |
| SystemApi.StrippedLogsComplete | app/api/v1/system.py:99-105 | Every line that does not strip to nothing contributes its stripped form. |
| SystemApi.StripAll | app/api/v1/system.py:99-105 | The loop yields, in order, one entry per line that is not blank, holding the stripped line. |
| SystemApi.GetLogs | app/api/v1/system.py:79-116 | A missing file gives no logs and "No log file found". A read error gives HTTP 500 with "Failed to read logs: " and the message. Otherwise the entries are those of the filtered, truncated, stripped lines, and `total`, `limit` and the filter are echoed. `limit` defaults to 100 and the filter to none. |
| SystemApi.QueriedLines | app/api/v1/system.py:92-97 | Filtering comes before truncation, so every kept line is a line of the file that contains the id when a filter is given. |
| SystemApi.LogsQuerySpec | app/api/v1/system.py:92-109 | For a positive limit there are at most `limit` entries. Each entry is the non-empty stripped form of a line of the file that contains the filter id. |
| SystemApi.ConversionLinesMatchTheirId | app/core/logging.py:13 | Every line a conversion writes, in the handler's format, contains its request id, so the log query's filter finds the whole trail. |
| Text.ContainsIsOccurs | app/api/v1/system.py:94 | The computed `request_id in line` holds exactly when the id occurs at some position of the line. |
| Text.StripSpec | app/api/v1/system.py:100 | `strip()` yields the run of the line between whitespace at both ends. That run neither starts nor ends with whitespace, and it is empty exactly when the line is blank. |
| Text.StripIdempotent | app/api/v1/system.py:100 | Stripping a stripped line changes nothing. |
| Seqs.FilterSpec | app/core/service_registry.py:58 | A conditional comprehension keeps exactly the elements that pass, each as often as it occurs, in their original order. |

## Left out

- Playwright is an external library, so it is not modelled. Page layout, network fetches and the PDF bytes themselves come from the `Engine` value: it decides which call raises and which bytes `page.pdf` returns, and it answers a call the same way every time.
- `uuid.uuid4()` and `datetime.now()` are nondeterministic, so they are parameters: the fresh id, and the `now` of `HealthCheck` and `GetLogs`.
- SystemApi.GetLogs: every entry carries the same timestamp `now`, whereas the source reads the clock once per line. The timestamps have no meaning beyond that.
- SystemApi.GetLogs: reading the log file is I/O, so the file's state is the `LogFile` datatype (missing, unreadable with a message, or its lines). The log line written when reading fails is not modelled.
- async/await and concurrency between requests are not modelled. Each conversion is one sequential run.
- `HttpUrl` validation and normalisation and the other pydantic models are library behaviour. The URL is taken as the string `str(request.url)` produced.
- The `extra` dict's values are modelled as JSON-like `Value`s. Python's logging machinery and the stream handler are not modelled.
- PdfApi.ConvertUrlEndpoint and PdfApi.ConvertHtmlEndpoint use the fresh uuid for both the handler and the service. The service draws a second uuid only when the handler's id is empty, which a uuid never is.
- app/core/dependencies.py, app/application.py, main.py, version.py and the environment reads of app/core/config.py are not part of this model. Their constants appear as fixed values (service name, version, description, margin "1cm").
