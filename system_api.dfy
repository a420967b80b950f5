/**
 * The system endpoints (app/api/v1/system.py): health, service information,
 * the service listing, and the log query that reads the log file, keeps the
 * lines naming a request id, takes the last `limit` of them and returns
 * them stripped.
 */
module SystemApi {
  import opened Wrappers
  import opened Http
  import opened Text
  import opened Seqs
  import opened Registry
  import PdfService

  /** `settings.SERVICE_NAME`, `settings.SERVICE_DESCRIPTION`, `settings.VERSION`. */
  const ServiceName := "UtilityHub"
  const ServiceDescription := "Multi-purpose utility service platform"
  const Version := "1.0.0"

  // ---------------------------------------------------------------------
  // Health and service information
  // ---------------------------------------------------------------------

  datatype Health = Health(status: string, service: string, version: string, description: string, timestamp: string)

  /** `health_check`: always healthy, named after the platform; `now` is the clock's reading. */
  function HealthCheck(now: string): (h: Health)
    ensures h.status == "healthy"
    ensures h.service == ServiceName && h.version == Version && h.description == ServiceDescription
    ensures h.timestamp == now
  {
    Health("healthy", ServiceName, Version, ServiceDescription, now)
  }

  /** One entry of `service_info`'s `services`. */
  datatype ServiceSummary = ServiceSummary(name: string, description: string, version: string,
                                           endpoints: seq<string>, status: string)

  datatype ServiceDetails = ServiceDetails(
    service: string, version: string, description: string,
    platformFeatures: seq<string>, services: seq<ServiceSummary>,
    totalServices: nat, allEndpoints: seq<string>)

  const PlatformFeatures: seq<string> := [
    "Request Tracking", "Automatic Dependency Management", "Structured Logging",
    "Modular Architecture", "Health Monitoring"]

  function Summarize(s: ServiceInfo): ServiceSummary {
    ServiceSummary(s.name, s.description, s.version, s.endpoints, s.status)
  }

  /**
   * `service_info`: a summary of each active service, in registry order,
   * their count, and the endpoints of ALL registered services, active or not.
   */
  method ServiceInfoReport(registry: ServiceRegistry) returns (r: ServiceDetails)
    requires registry.Valid()
    ensures r.service == ServiceName && r.version == Version && r.description == ServiceDescription
    ensures r.platformFeatures == PlatformFeatures
    ensures r.totalServices == |r.services| == |registry.GetActiveServices()|
    ensures forall i :: 0 <= i < |r.services| ==> r.services[i] == Summarize(registry.GetActiveServices()[i])
    ensures forall i :: 0 <= i < |r.services| ==> r.services[i].status == "active"
    ensures r.allEndpoints == Endpoints(registry.ListServices())
    ensures forall e :: e in r.allEndpoints <==>
              exists n :: n in registry.services && e in registry.services[n].endpoints
  {
    var services := registry.GetActiveServices();
    var all := registry.GetAllEndpoints();
    registry.AllEndpointsSpec();
    var summaries := seq(|services|, i requires 0 <= i < |services| => Summarize(services[i]));
    r := ServiceDetails(ServiceName, Version, ServiceDescription, PlatformFeatures,
                        summaries, |services|, all);
    assert forall i :: 0 <= i < |services| ==> services[i] in services;
  }

  /** One entry of `list_services`'s `services`; `dependencies` is never null. */
  datatype ServiceEntry = ServiceEntry(name: string, description: string, version: string,
                                       status: string, endpoints: seq<string>, dependencies: seq<string>)

  datatype ServiceListing = ServiceListing(services: seq<ServiceEntry>, total: nat, active: nat)

  /** `service.dependencies or []`. */
  function Entry(s: ServiceInfo): ServiceEntry {
    ServiceEntry(s.name, s.description, s.version, s.status, s.endpoints, s.dependencies.GetOr([]))
  }

  /**
   * `list_services`: an entry per registered service in registration
   * order, `total` the number of distinct registered names and `active`
   * the number of active ones.
   */
  function ListServices(registry: ServiceRegistry): (r: ServiceListing)
    reads registry
    requires registry.Valid()
    ensures r.total == |r.services| == |registry.services|
    ensures r.active == |registry.GetActiveServices()| <= r.total
    ensures forall i :: 0 <= i < |r.services| ==>
              r.services[i] == Entry(registry.services[registry.names[i]]) &&
              r.services[i].name == registry.names[i]
  {
    var services := registry.ListServices();
    ServiceListing(seq(|services|, i requires 0 <= i < |services| => Entry(services[i])),
                   |services|, |registry.GetActiveServices()|)
  }

  // ---------------------------------------------------------------------
  // The log query
  // ---------------------------------------------------------------------

  /** The log file as `get_logs` finds it: missing, failing to read, or its lines. */
  datatype LogFile = Absent | Unreadable(error: string) | Readable(lines: seq<string>)

  /** One returned entry: the time of the query and the stripped line. */
  datatype LogEntry = LogEntry(timestamp: string, rawLog: string)

  datatype LogsResponse =
    | NoLogFile(logs: seq<LogEntry>, message: string)
    | LogsPage(logs: seq<LogEntry>, total: nat, limit: int, requestIdFilter: Option<string>)

  /** The entries for the lines `raw`, each stamped with `now`. */
  function Stamped(raw: seq<string>, now: string): (r: seq<LogEntry>)
    ensures |r| == |raw|
    ensures forall i :: 0 <= i < |r| ==> r[i].rawLog == raw[i] && r[i].timestamp == now
  {
    seq(|raw|, i requires 0 <= i < |raw| => LogEntry(now, raw[i]))
  }

  /** The test of the filter comprehension: `request_id in line`. */
  function Mentions(id: string): string -> bool {
    line => Contains(line, id)
  }

  /**
   * `[line for line in lines if request_id in line]` when `request_id` is
   * given and non-empty, otherwise all lines: the lines containing the id,
   * each as often as it occurs, in file order.
   */
  function Filtered(lines: seq<string>, requestId: Option<string>): (r: seq<string>)
    ensures requestId.None? || requestId.value == [] ==> r == lines
    ensures IsSubsequence(r, lines)
    ensures requestId.Some? && requestId.value != [] ==>
              && (forall line :: line in r ==> Occurs(requestId.value, line))
              && (forall line :: multiset(r)[line] ==
                    if Occurs(requestId.value, line) then multiset(lines)[line] else 0)
  {
    if requestId.Some? && requestId.value != [] then
      var keep := Mentions(requestId.value);
      FilterSpec(lines, keep);
      forall line ensures keep(line) <==> Occurs(requestId.value, line) {
        ContainsIsOccurs(line, requestId.value);
      }
      Filter(lines, keep)
    else
      SubsequenceOfItself(lines);
      lines
  }

  lemma {:induction false} SubsequenceOfItself<T>(s: seq<T>)
    ensures IsSubsequence(s, s)
  {
    if s != [] {
      SubsequenceOfItself(s[1..]);
    }
  }

  /** The index Python starts from in `s[start:]` on a sequence of length `n`. */
  function SliceStart(start: int, n: nat): (k: nat)
    ensures k <= n
  {
    if start < 0 then (if start + n < 0 then 0 else start + n)
    else if start > n then n
    else start
  }

  /**
   * `lines[-limit:]`: for 0 < limit <= n the last `limit` lines; every line
   * when limit >= n and, since `-0` is `0`, when limit == 0; and for a
   * negative limit every line but the first `-limit`.
   */
  function TakeLast<T>(lines: seq<T>, limit: int): (r: seq<T>)
    ensures 0 < limit <= |lines| ==> r == lines[|lines| - limit..] && |r| == limit
    ensures limit >= |lines| ==> r == lines
    ensures limit == 0 ==> r == lines
    ensures limit < 0 ==> r == lines[if -limit <= |lines| then -limit else |lines|..]
  {
    lines[SliceStart(-limit, |lines|)..]
  }

  /** `line.strip()` for each line, leaving out the lines that strip to nothing. */
  function StrippedLogs(lines: seq<string>): seq<string> {
    if lines == [] then []
    else
      var s := Strip(lines[|lines| - 1]);
      StrippedLogs(lines[..|lines| - 1]) + (if s != [] then [s] else [])
  }

  /** Each appended log comes from one line, so there are at most as many logs as lines. */
  lemma {:induction false} StrippedLogsLength(lines: seq<string>)
    ensures |StrippedLogs(lines)| <= |lines|
  {
    if lines != [] {
      StrippedLogsLength(lines[..|lines| - 1]);
    }
  }

  /** Every returned log is a non-blank, already stripped, stripped input line. */
  lemma {:induction false} StrippedLogsSound(lines: seq<string>)
    ensures forall s :: s in StrippedLogs(lines) ==>
              s != [] && Strip(s) == s && exists i :: 0 <= i < |lines| && s == Strip(lines[i])
  {
    if lines != [] {
      var front := lines[..|lines| - 1];
      var last := lines[|lines| - 1];
      StrippedLogsSound(front);
      forall s | s in StrippedLogs(lines)
        ensures s != [] && Strip(s) == s && exists i :: 0 <= i < |lines| && s == Strip(lines[i])
      {
        if s in StrippedLogs(front) {
          var i :| 0 <= i < |front| && s == Strip(front[i]);
          assert lines[i] == front[i];
        } else {
          assert s == Strip(last);
          StripIdempotent(last);
          assert s == Strip(lines[|lines| - 1]);
        }
      }
    }
  }

  /** Every input line that is not blank yields its stripped form among the logs. */
  lemma {:induction false} StrippedLogsComplete(lines: seq<string>)
    ensures forall i :: 0 <= i < |lines| && Strip(lines[i]) != [] ==> Strip(lines[i]) in StrippedLogs(lines)
  {
    if lines != [] {
      var front := lines[..|lines| - 1];
      var last := Strip(lines[|lines| - 1]);
      var tail := if last != [] then [last] else [];
      assert StrippedLogs(lines) == StrippedLogs(front) + tail;
      StrippedLogsComplete(front);
      forall i | 0 <= i < |lines| && Strip(lines[i]) != [] ensures Strip(lines[i]) in StrippedLogs(lines) {
        if i < |front| {
          assert lines[i] == front[i];
        }
      }
    }
  }

  /**
   * `get_logs`: no file gives an empty answer and a message; a file that
   * cannot be read gives HTTP 500; otherwise the lines are filtered by the
   * request id, truncated to `lines[-limit:]`, stripped, blank ones dropped,
   * and the answer echoes `limit` and the filter. Like the query
   * parameters, `limit` defaults to 100 and the filter to none.
   */
  method GetLogs(file: LogFile, now: string, limit: int := 100, requestId: Option<string> := None)
    returns (r: Result<LogsResponse, HttpError>)
    ensures file.Absent? ==> r == Success(NoLogFile([], "No log file found"))
    ensures file.Unreadable? ==>
              r == Failure(HttpError(InternalServerError, "Failed to read logs: " + file.error))
    ensures file.Readable? ==>
              && r.Success? && r.value.LogsPage?
              && r.value.logs == Stamped(StrippedLogs(TakeLast(Filtered(file.lines, requestId), limit)), now)
              && r.value.total == |r.value.logs|
              && r.value.limit == limit
              && r.value.requestIdFilter == requestId
  {
    match file {
      case Absent =>
        r := Success(NoLogFile([], "No log file found"));
      case Unreadable(e) =>
        r := Failure(HttpError(InternalServerError, "Failed to read logs: " + e));
      case Readable(all) =>
        var lines := Filtered(all, requestId);
        lines := TakeLast(lines, limit);
        var logs := StripAll(lines, now);
        r := Success(LogsPage(logs, |logs|, limit, requestId));
    }
  }

  /** The loop of `get_logs`: strip each line and keep the non-empty ones as entries. */
  method StripAll(lines: seq<string>, now: string) returns (logs: seq<LogEntry>)
    ensures logs == Stamped(StrippedLogs(lines), now)
  {
    logs := [];
    for i := 0 to |lines|
      invariant logs == Stamped(StrippedLogs(lines[..i]), now)
    {
      assert lines[..i + 1][..i] == lines[..i];
      var line := Strip(lines[i]);
      if line != [] {
        StampedAppend(StrippedLogs(lines[..i]), line, now);
        logs := logs + [LogEntry(now, line)];
      }
    }
    assert lines[..|lines|] == lines;
  }

  lemma StampedAppend(raw: seq<string>, line: string, now: string)
    ensures Stamped(raw + [line], now) == Stamped(raw, now) + [LogEntry(now, line)]
  {
  }

  /** The lines the query keeps come from the file and, under a filter, contain the id. */
  lemma QueriedLines(lines: seq<string>, limit: int, requestId: Option<string>)
    ensures forall line :: line in TakeLast(Filtered(lines, requestId), limit) ==>
              line in lines && (requestId.Some? && requestId.value != [] ==> Occurs(requestId.value, line))
  {
    var kept := Filtered(lines, requestId);
    forall line | line in TakeLast(kept, limit)
      ensures line in lines && (requestId.Some? && requestId.value != [] ==> Occurs(requestId.value, line))
    {
      assert line in kept;
      assert multiset(kept)[line] > 0;
      assert multiset(lines)[line] > 0;
    }
  }

  /**
   * What the log query returns for a readable file: for a positive limit at
   * most `limit` entries, and each entry the stripped form of a non-blank
   * line of the file which, when a filter is given, contains the request id.
   */
  lemma LogsQuerySpec(lines: seq<string>, limit: int, requestId: Option<string>)
    ensures var logs := StrippedLogs(TakeLast(Filtered(lines, requestId), limit));
      && (0 < limit ==> |logs| <= limit)
      && forall s :: s in logs ==>
           s != [] &&
           exists line :: line in lines && s == Strip(line) &&
             (requestId.Some? && requestId.value != [] ==> Occurs(requestId.value, line))
  {
    var last := TakeLast(Filtered(lines, requestId), limit);
    StrippedLogsLength(last);
    StrippedLogsSound(last);
    QueriedLines(lines, limit, requestId);
    forall s | s in StrippedLogs(last)
      ensures s != [] &&
              exists line :: line in lines && s == Strip(line) &&
                (requestId.Some? && requestId.value != [] ==> Occurs(requestId.value, line))
    {
      var i :| 0 <= i < |last| && s == Strip(last[i]);
      assert last[i] in last;
    }
  }

  // ---------------------------------------------------------------------
  // Log lines of a conversion
  // ---------------------------------------------------------------------

  /**
   * The line the file handler writes for a record, with the format
   * `%(asctime)s - %(name)s - %(levelname)s - %(message)s`.
   */
  function FormatLine(asctime: string, logger: string, record: PdfService.LogRecord): string {
    var level := if record.level == PdfService.Info then "INFO" else "ERROR";
    asctime + " - " + logger + " - " + level + " - " + record.message + "\n"
  }

  /**
   * Every line a conversion writes passes the log query's filter for that
   * conversion's request id, whatever the timestamp and logger name.
   */
  lemma ConversionLinesMatchTheirId(trace: seq<PdfService.Event>, id: string, asctime: string, logger: string)
    requires PdfService.AllTagged(trace, id)
    ensures forall i :: 0 <= i < |trace| && trace[i].Logged? ==>
              Contains(FormatLine(asctime, logger, trace[i].record), id)
  {
    forall i | 0 <= i < |trace| && trace[i].Logged?
      ensures Contains(FormatLine(asctime, logger, trace[i].record), id)
    {
      var record := trace[i].record;
      var level := if record.level == PdfService.Info then "INFO" else "ERROR";
      var prefix := asctime + " - " + logger + " - " + level + " - ";
      assert FormatLine(asctime, logger, record) == prefix + record.message + "\n";
      OccursWithin(prefix, record.message, "\n", id);
      ContainsIsOccurs(FormatLine(asctime, logger, record), id);
    }
  }
}
