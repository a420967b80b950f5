/**
 * The PDF endpoints (app/api/v1/pdf.py): each picks the request id from the
 * `X-Request-ID` header or a fresh uuid, asks PDFService for the document,
 * and answers either with the bytes as an attachment or with HTTP 500.
 */
module PdfApi {
  import opened Wrappers
  import opened Http
  import opened PdfService

  /** The body of `POST /pdf/url`: the page address and optional render options. */
  datatype UrlToPdfRequest = UrlToPdfRequest(url: string, options: Option<Options> := None)

  /** The body of `POST /pdf/html`: the markup and optional render options. */
  datatype HtmlToPdfRequest = HtmlToPdfRequest(html: string, options: Option<Options> := None)

  /** The streamed reply: the document bytes, their media type and the download header. */
  datatype PdfResponse = PdfResponse(body: seq<byte>, mediaType: string, contentDisposition: string)

  const PdfMediaType := "application/pdf"

  /**
   * The id the handler passes on is already non-empty whenever the fresh
   * uuid is, so the service keeps it: the id in the log lines is the one the
   * handler chose. When both are empty the service's own choice is the same
   * empty string, so the two never differ.
   */
  lemma HandlerIdIsServiceId(xRequestId: Option<string>, freshId: string)
    ensures var id := ChooseRequestId(xRequestId, freshId);
      ChooseRequestId(Some(id), freshId) == id
  {
  }

  /**
   * What a handler answers for a conversion of `source` to the file
   * `filename`: the engine calls are the session's; success exactly when
   * the session raised nothing, and then the engine's bytes as a PDF
   * attachment under that name; otherwise HTTP 500 whose detail is the
   * session's exception message behind a fixed prefix. Every log line
   * carries the handler's request id; the first announces the start, the
   * last reports the size or the error, and between them lies the session
   * with its step announcements.
   */
  ghost predicate Answered(engine: Engine, source: Source, options: Option<Options>,
                           xRequestId: Option<string>, freshId: string, filename: string,
                           response: Result<PdfResponse, HttpError>, trace: seq<Event>)
  {
    var id := ChooseRequestId(xRequestId, freshId);
    var opts := ResolveOptions(options);
    var error := SessionError(engine, source, opts);
    && Calls(trace) == SessionCalls(engine, source, opts)
    && (response.Success? <==> error.None?)
    && (response.Success? ==>
          response.value == PdfResponse(engine.pdf, PdfMediaType, "attachment; filename=" + filename))
    && (response.Failure? ==>
          response.error == HttpError(InternalServerError, "PDF conversion failed: " + error.value))
    && |trace| >= 2
    && trace[0] == Logged(StartRecord(source, id, opts))
    && trace[|trace| - 1] == Logged(if response.Success? then CompletedRecord(id, |engine.pdf|)
                                    else FailedRecord(source, id, error.value))
    && trace == [trace[0]] + SessionTrace(engine, source, opts, id) + [trace[|trace| - 1]]
    && AllTagged(trace, id)
  }

  /**
   * The `try`/`except` of a handler: the service's bytes become the PDF
   * download named `filename`; its exception becomes HTTP 500.
   */
  function Respond(result: Result<seq<byte>, string>, filename: string): Result<PdfResponse, HttpError> {
    match result
    case Success(pdf) => Success(PdfResponse(pdf, PdfMediaType, "attachment; filename=" + filename))
    case Failure(e) => Failure(HttpError(InternalServerError, "PDF conversion failed: " + e))
  }

  /** A conversion run under the handler's id, answered by `Respond`, is a handler's answer. */
  lemma ConvertedIsAnswered(engine: Engine, source: Source, options: Option<Options>,
                            xRequestId: Option<string>, freshId: string, filename: string,
                            result: Result<seq<byte>, string>, trace: seq<Event>)
    requires Converted(engine, source, options, Some(ChooseRequestId(xRequestId, freshId)), freshId, result, trace)
    ensures Answered(engine, source, options, xRequestId, freshId, filename, Respond(result, filename), trace)
  {
    HandlerIdIsServiceId(xRequestId, freshId);
  }

  /** `convert_url_to_pdf`: the page rendered as `webpage.pdf`, without ever setting content. */
  method ConvertUrlEndpoint(engine: Engine, request: UrlToPdfRequest,
                            xRequestId: Option<string>, freshId: string)
    returns (response: Result<PdfResponse, HttpError>, trace: seq<Event>)
    ensures Answered(engine, FromUrl(request.url), request.options, xRequestId, freshId,
                     "webpage.pdf", response, trace)
    ensures forall c :: c in Calls(trace) ==> !c.SetContent? && (c.Goto? ==> c.url == request.url)
  {
    var id := ChooseRequestId(xRequestId, freshId);
    var result;
    result, trace := ConvertUrlToPdf(engine, request.url, request.options, Some(id), freshId);
    response := Respond(result, "webpage.pdf");
    ConvertedIsAnswered(engine, FromUrl(request.url), request.options, xRequestId, freshId,
                        "webpage.pdf", result, trace);
  }

  /** `convert_html_to_pdf`: the markup rendered as `document.pdf`, without ever navigating. */
  method ConvertHtmlEndpoint(engine: Engine, request: HtmlToPdfRequest,
                             xRequestId: Option<string>, freshId: string)
    returns (response: Result<PdfResponse, HttpError>, trace: seq<Event>)
    ensures Answered(engine, FromHtml(request.html), request.options, xRequestId, freshId,
                     "document.pdf", response, trace)
    ensures forall c :: c in Calls(trace) ==> !c.Goto? && (c.SetContent? ==> c.html == request.html)
  {
    var id := ChooseRequestId(xRequestId, freshId);
    var result;
    result, trace := ConvertHtmlToPdf(engine, request.html, request.options, Some(id), freshId);
    response := Respond(result, "document.pdf");
    ConvertedIsAnswered(engine, FromHtml(request.html), request.options, xRequestId, freshId,
                        "document.pdf", result, trace);
  }
}
