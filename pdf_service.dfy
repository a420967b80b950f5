/**
 * PDFService (app/services/pdf_service.py): the request id, the render
 * options, and the session that drives the headless browser through
 * launch, load, wait, render and close, with a log line at each step.
 *
 * The browser is a scripted engine: it answers each call either normally
 * or with the message of the exception that call raises, and `page.pdf`
 * returns the engine's bytes. A conversion returns its result together with
 * the trace of what it did: the engine calls it made and the log records it
 * wrote, interleaved in the order they happened.
 */
module PdfService {
  import opened Wrappers
  import opened Text

  newtype byte = x: int | 0 <= x < 0x100

  /** A JSON value, as the caller's `options` object carries it. */
  datatype Value =
    | Null
    | Bool(b: bool)
    | Num(n: int)
    | Real(r: real)
    | Str(s: string)
    | List(items: seq<Value>)
    | Dict(fields: map<string, Value>)

  /** Keyword arguments for `page.pdf`, keyed by name. */
  type Options = map<string, Value>

  // ---------------------------------------------------------------------
  // Request id and options
  // ---------------------------------------------------------------------

  /** The textual form of `uuid.uuid4()`: 36 characters, dashes at 8, 13, 18, 23. */
  predicate IsUuid(s: string) {
    |s| == 36 && s[8] == '-' && s[13] == '-' && s[18] == '-' && s[23] == '-'
  }

  /**
   * `request_id or str(uuid.uuid4())`: the supplied id unless it is absent
   * or empty, otherwise the freshly generated one.
   */
  function ChooseRequestId(requestId: Option<string>, freshId: string): (id: string)
    ensures requestId.Some? && requestId.value != [] ==> id == requestId.value
    ensures requestId.None? || requestId.value == [] ==> id == freshId
    ensures IsUuid(freshId) ==> id != []
  {
    if requestId.Some? && requestId.value != [] then requestId.value else freshId
  }

  /** The margin `PDFService.__init__` sets on all four sides. */
  const DefaultMargin: Options :=
    map["top" := Str("1cm"), "right" := Str("1cm"), "bottom" := Str("1cm"), "left" := Str("1cm")]

  /** `self.default_options` as `PDFService.__init__` builds it. */
  const DefaultOptions: Options :=
    map["format" := Str("A4"),
        "margin" := Dict(DefaultMargin),
        "print_background" := Bool(true),
        "prefer_css_page_size" := Bool(true)]

  /**
   * `{**self.default_options, **(options or {})}`: a top-level merge in
   * which every caller key wins, and every default key the caller did not
   * supply keeps its default. A caller's `margin` replaces the default
   * margin as a whole.
   */
  function ResolveOptions(overrides: Option<Options>): (r: Options)
    ensures overrides.None? ==> r == DefaultOptions
    ensures overrides.Some? ==> r.Keys == DefaultOptions.Keys + overrides.value.Keys
    ensures overrides.Some? ==> forall k :: k in overrides.value ==> r[k] == overrides.value[k]
    ensures forall k :: k in DefaultOptions && (overrides.None? || k !in overrides.value) ==>
              r[k] == DefaultOptions[k]
  {
    DefaultOptions + overrides.GetOr(map[])
  }

  /** Without overrides the options are exactly the defaults, field by field. */
  lemma ResolveWithoutOverrides()
    ensures ResolveOptions(None) == ResolveOptions(Some(map[]))
    ensures var r := ResolveOptions(None);
      && r.Keys == {"format", "margin", "print_background", "prefer_css_page_size"}
      && r["format"] == Str("A4")
      && r["margin"] == Dict(map["top" := Str("1cm"), "right" := Str("1cm"),
                                 "bottom" := Str("1cm"), "left" := Str("1cm")])
      && r["print_background"] == Bool(true)
      && r["prefer_css_page_size"] == Bool(true)
  {
  }

  /**
   * A margin override with only `top` leaves no `right`, `bottom` or `left`:
   * the merge does not descend into `margin`.
   */
  lemma MarginOverrideReplacesWholeMargin(top: Value)
    ensures var r := ResolveOptions(Some(map["margin" := Dict(map["top" := top])]));
      && r["margin"] == Dict(map["top" := top])
      && r["margin"].fields.Keys == {"top"}
      && r["format"] == Str("A4")
  {
  }

  /** Resolving already-resolved options changes nothing. */
  lemma ResolveIdempotent(overrides: Option<Options>)
    ensures ResolveOptions(Some(ResolveOptions(overrides))) == ResolveOptions(overrides)
  {
  }

  // ---------------------------------------------------------------------
  // The browser engine
  // ---------------------------------------------------------------------

  /** One call the service makes on Playwright, with its arguments. */
  datatype Call =
    | StartPlaywright                 // entering `async with async_playwright() as p`
    | Launch                          // `p.chromium.launch()`
    | NewPage                         // `browser.new_page()`
    | Goto(url: string)               // `page.goto(url)`
    | SetContent(html: string)        // `page.set_content(html)`
    | WaitForLoadState(state: string) // `page.wait_for_load_state(state)`
    | RenderPdf(options: Options)     // `page.pdf(**options)`
    | CloseBrowser                    // `browser.close()`
    | StopPlaywright                  // leaving the `async with` block

  /**
   * A scripted browser: `failures` maps each call that raises to the
   * message of its exception; every other call returns normally, and
   * `page.pdf` returns `pdf`.
   */
  datatype Engine = Engine(failures: map<Call, string>, pdf: seq<byte>) {
    function Answer(c: Call): Option<string> {
      if c in failures then Some(failures[c]) else None
    }
  }

  /** What is converted: a URL to navigate to, or HTML to set as the page. */
  datatype Source = FromUrl(url: string) | FromHtml(html: string)

  /** The call that puts the source into the page. */
  function LoadCall(source: Source): Call {
    match source
    case FromUrl(url) => Goto(url)
    case FromHtml(html) => SetContent(html)
  }

  /** The calls made inside the `async with` block, in source order. */
  function Planned(source: Source, opts: Options): (steps: seq<Call>)
    ensures |steps| == 6
  {
    [Launch, NewPage, LoadCall(source), WaitForLoadState("networkidle"), RenderPdf(opts), CloseBrowser]
  }

  /** The index of the first of `steps` the engine rejects, or `|steps|` when none is. */
  function FirstFailure(engine: Engine, steps: seq<Call>): (k: nat)
    ensures k <= |steps|
    ensures forall i :: 0 <= i < k ==> engine.Answer(steps[i]).None?
    ensures k < |steps| ==> engine.Answer(steps[k]).Some?
  {
    if steps == [] then 0
    else if engine.Answer(steps[0]).Some? then 0
    else 1 + FirstFailure(engine, steps[1..])
  }

  /**
   * The engine calls one conversion makes: entering the Playwright context,
   * then the planned steps up to and including the first that raises, then
   * leaving the context. If entering raises, nothing else happens.
   */
  function SessionCalls(engine: Engine, source: Source, opts: Options): seq<Call> {
    if engine.Answer(StartPlaywright).Some? then [StartPlaywright]
    else
      var steps := Planned(source, opts);
      var k := FirstFailure(engine, steps);
      [StartPlaywright] + steps[..if k < |steps| then k + 1 else k] + [StopPlaywright]
  }

  /**
   * The exception a conversion raises, if any. Entering the context may
   * raise; otherwise an exception raised while leaving it replaces any
   * exception in flight; otherwise it is the first step that raised.
   */
  function SessionError(engine: Engine, source: Source, opts: Options): Option<string> {
    if engine.Answer(StartPlaywright).Some? then engine.Answer(StartPlaywright)
    else if engine.Answer(StopPlaywright).Some? then engine.Answer(StopPlaywright)
    else
      var steps := Planned(source, opts);
      var k := FirstFailure(engine, steps);
      if k < |steps| then engine.Answer(steps[k]) else None
  }

  // ---------------------------------------------------------------------
  // Log records and traces
  // ---------------------------------------------------------------------

  datatype Level = Info | Error

  /** One `logger.info` / `logger.error` call: level, id, message, `extra`. */
  datatype LogRecord = LogRecord(level: Level, requestId: string, message: string, extra: map<string, Value>)

  /** What a conversion does, in order: a log record written or an engine call made. */
  datatype Event = Logged(record: LogRecord) | Called(call: Call)

  /**
   * `logger.<level>(f"Request {request_id}: {text}", extra={"request_id": request_id, ...})`.
   * The message names the request id, so a substring filter on it finds the line.
   */
  function Record(level: Level, id: string, text: string, extra: map<string, Value>): (r: LogRecord)
    ensures r.requestId == id && "request_id" in r.extra && r.extra["request_id"] == Str(id)
    ensures Occurs(id, r.message)
  {
    assert OccursAt(id, "Request " + id + ": " + text, |"Request "|);
    LogRecord(level, id, "Request " + id + ": " + text, extra + map["request_id" := Str(id)])
  }

  /** The `extra` fields that describe the source in the start and failure lines. */
  function SourceExtra(source: Source): map<string, Value> {
    match source
    case FromUrl(url) => map["url" := Str(url)]
    case FromHtml(html) => map["html_length" := Num(|html|)]
  }

  function StartRecord(source: Source, id: string, opts: Options): LogRecord {
    var text := if source.FromUrl? then "Starting URL to PDF conversion" else "Starting HTML to PDF conversion";
    Record(Info, id, text, SourceExtra(source)["options" := Dict(opts)])
  }

  function LoadText(source: Source): string {
    if source.FromUrl? then "Navigating to URL" else "Setting HTML content"
  }

  function CompletedRecord(id: string, size: nat): LogRecord {
    Record(Info, id, "PDF generation completed successfully", map["pdf_size" := Num(size)])
  }

  function FailedRecord(source: Source, id: string, error: string): LogRecord {
    Record(Error, id, "PDF conversion failed", SourceExtra(source)["error" := Str(error)])
  }

  /** The engine calls of a trace, in order. */
  function Calls(trace: seq<Event>): seq<Call> {
    if trace == [] then []
    else
      var last := trace[|trace| - 1];
      Calls(trace[..|trace| - 1]) + (if last.Called? then [last.call] else [])
  }

  lemma CallsConcat(a: seq<Event>, b: seq<Event>)
    ensures Calls(a + b) == Calls(a) + Calls(b)
    decreases |b|
  {
    if b != [] {
      var b' := b[..|b| - 1];
      assert (a + b)[..|a + b| - 1] == a + b';
      assert (a + b)[|a + b| - 1] == b[|b| - 1];
      CallsConcat(a, b');
      var tail := if b[|b| - 1].Called? then [b[|b| - 1].call] else [];
      assert Calls(b) == Calls(b') + tail;
      assert Calls(a + b) == Calls(a + b') + tail;
      assert Calls(a + b) == Calls(a) + (Calls(b') + tail);
    } else {
      assert a + b == a;
    }
  }

  /** Every record in the trace carries `id` and names it in its message. */
  ghost predicate AllTagged(trace: seq<Event>, id: string) {
    forall i :: 0 <= i < |trace| && trace[i].Logged? ==>
      trace[i].record.requestId == id && Occurs(id, trace[i].record.message)
  }

  /**
   * The line the session logs just before `c`, for the three calls that
   * have one: launching, loading the source, rendering.
   */
  function Announcement(c: Call): Option<string> {
    match c
    case Launch => Some("Launching browser")
    case Goto(_) => Some("Navigating to URL")
    case SetContent(_) => Some("Setting HTML content")
    case RenderPdf(_) => Some("Generating PDF")
    case _ => None
  }

  /** The exception a stretch of `c1` then `c2` raises: the first call's, else the second's. */
  function StretchError(engine: Engine, c1: Call, c2: Call): Option<string> {
    if engine.Answer(c1).Some? then engine.Answer(c1) else engine.Answer(c2)
  }

  /**
   * One stretch of the block as it happens: the info line `text`, the call
   * `c1`, and `c2` unless `c1` raised.
   */
  function StretchTrace(engine: Engine, id: string, text: string, c1: Call, c2: Call): seq<Event> {
    [Logged(Record(Info, id, text, map[])), Called(c1)] + (if engine.Answer(c1).Some? then [] else [Called(c2)])
  }

  /**
   * The events of the `async with` body: the launch, load and render
   * stretches in turn, none after the first stretch that raised.
   */
  function BlockTrace(engine: Engine, source: Source, opts: Options, id: string): seq<Event> {
    var launch := StretchTrace(engine, id, "Launching browser", Launch, NewPage);
    var load := StretchTrace(engine, id, LoadText(source), LoadCall(source), WaitForLoadState("networkidle"));
    var render := StretchTrace(engine, id, "Generating PDF", RenderPdf(opts), CloseBrowser);
    if StretchError(engine, Launch, NewPage).Some? then launch
    else if StretchError(engine, LoadCall(source), WaitForLoadState("networkidle")).Some? then launch + load
    else launch + load + render
  }

  /** The exception the block raises: that of the first stretch that raised, if any. */
  function BlockError(engine: Engine, source: Source, opts: Options): Option<string> {
    var launch := StretchError(engine, Launch, NewPage);
    var load := StretchError(engine, LoadCall(source), WaitForLoadState("networkidle"));
    if launch.Some? then launch else if load.Some? then load
    else StretchError(engine, RenderPdf(opts), CloseBrowser)
  }

  /**
   * Everything a session does, in order: entering the Playwright context,
   * and, if that succeeded, the block and leaving the context.
   */
  function SessionTrace(engine: Engine, source: Source, opts: Options, id: string): seq<Event> {
    if engine.Answer(StartPlaywright).Some? then [Called(StartPlaywright)]
    else [Called(StartPlaywright)] + BlockTrace(engine, source, opts, id) + [Called(StopPlaywright)]
  }

  /**
   * In `t` an event is a log record exactly when the next event is a call
   * with an announcement, and the record is then that announcement for
   * `id`. No announced call opens `t` and no record closes it.
   */
  ghost predicate Announced(t: seq<Event>, id: string) {
    && (|t| > 0 ==> !t[|t| - 1].Logged? && !(t[0].Called? && Announcement(t[0].call).Some?))
    && forall i :: 0 <= i < |t| - 1 ==>
         && (t[i].Logged? <==> t[i + 1].Called? && Announcement(t[i + 1].call).Some?)
         && (t[i].Logged? ==> t[i].record == Record(Info, id, Announcement(t[i + 1].call).value, map[]))
  }

  lemma AnnouncedConcat(a: seq<Event>, b: seq<Event>, id: string)
    requires Announced(a, id) && Announced(b, id)
    ensures Announced(a + b, id)
  {
    var t := a + b;
    forall i | 0 <= i < |t| - 1
      ensures && (t[i].Logged? <==> t[i + 1].Called? && Announcement(t[i + 1].call).Some?)
              && (t[i].Logged? ==> t[i].record == Record(Info, id, Announcement(t[i + 1].call).value, map[]))
    {
      if i < |a| - 1 {
        assert t[i] == a[i] && t[i + 1] == a[i + 1];
      } else if i == |a| - 1 {
        assert t[i] == a[i] && t[i + 1] == b[0];
      } else {
        assert t[i] == b[i - |a|] && t[i + 1] == b[i - |a| + 1];
      }
    }
  }

  /** A stretch whose first call is announced by `text` and whose second is not is announced. */
  lemma StretchAnnounced(engine: Engine, id: string, text: string, c1: Call, c2: Call)
    requires Announcement(c1) == Some(text) && Announcement(c2).None?
    ensures Announced(StretchTrace(engine, id, text, c1, c2), id)
  {
  }

  /**
   * The session logs a line just before launching, just before navigating
   * or setting the content, and just before rendering, naming the step, and
   * logs nothing else: every record is followed by the call it announces,
   * and every such call comes straight after its record.
   */
  lemma {:induction false} SessionLogsAnnounceSteps(engine: Engine, source: Source, opts: Options, id: string)
    ensures Announced(SessionTrace(engine, source, opts, id), id)
    ensures var t := SessionTrace(engine, source, opts, id);
      forall i :: 0 <= i < |t| && t[i].Called? && Announcement(t[i].call).Some? ==>
        0 < i && t[i - 1] == Logged(Record(Info, id, Announcement(t[i].call).value, map[]))
  {
    var launch := StretchTrace(engine, id, "Launching browser", Launch, NewPage);
    var load := StretchTrace(engine, id, LoadText(source), LoadCall(source), WaitForLoadState("networkidle"));
    var render := StretchTrace(engine, id, "Generating PDF", RenderPdf(opts), CloseBrowser);
    StretchAnnounced(engine, id, "Launching browser", Launch, NewPage);
    StretchAnnounced(engine, id, LoadText(source), LoadCall(source), WaitForLoadState("networkidle"));
    StretchAnnounced(engine, id, "Generating PDF", RenderPdf(opts), CloseBrowser);
    AnnouncedConcat(launch, load, id);
    AnnouncedConcat(launch + load, render, id);
    var block := BlockTrace(engine, source, opts, id);
    assert Announced(block, id);
    assert Announced([Called(StartPlaywright)], id);
    assert Announced([Called(StopPlaywright)], id);
    AnnouncedConcat([Called(StartPlaywright)], block, id);
    AnnouncedConcat([Called(StartPlaywright)] + block, [Called(StopPlaywright)], id);
    var t := SessionTrace(engine, source, opts, id);
    assert Announced(t, id);
    forall i | 0 <= i < |t| && t[i].Called? && Announcement(t[i].call).Some?
      ensures 0 < i && t[i - 1] == Logged(Record(Info, id, Announcement(t[i].call).value, map[]))
    {
      assert 0 <= i - 1 < |t| - 1;
    }
  }

  /** A record that announces a call for `id` carries `id`, so an announced trace is tagged. */
  lemma AnnouncedTagged(t: seq<Event>, id: string)
    requires Announced(t, id)
    ensures AllTagged(t, id)
  {
    forall i | 0 <= i < |t| && t[i].Logged?
      ensures t[i].record.requestId == id && Occurs(id, t[i].record.message)
    {
      assert i < |t| - 1;
      assert t[i + 1].Called? && Announcement(t[i + 1].call).Some?;
      var r := Record(Info, id, Announcement(t[i + 1].call).value, map[]);
      assert t[i].record == r;
    }
  }

  lemma CallsSingle(e: Event)
    ensures Calls([e]) == if e.Called? then [e.call] else []
  {
    assert [e][..0] == [];
  }

  /** A stretch calls `c1`, and `c2` only when `c1` answered normally. */
  lemma StretchCalls(engine: Engine, id: string, text: string, c1: Call, c2: Call)
    ensures Calls(StretchTrace(engine, id, text, c1, c2)) == [c1] + (if engine.Answer(c1).Some? then [] else [c2])
  {
    var head := [Logged(Record(Info, id, text, map[]))];
    var tail: seq<Event> := if engine.Answer(c1).Some? then [] else [Called(c2)];
    CallsSingle(head[0]);
    CallsSingle(Called(c1));
    CallsConcat(head, [Called(c1)]);
    CallsConcat(head + [Called(c1)], tail);
    assert StretchTrace(engine, id, text, c1, c2) == head + [Called(c1)] + tail;
    if tail != [] {
      CallsSingle(Called(c2));
    }
  }

  /** The first failure is at `j` when every step before `j` answers normally and `steps[j]`, if any, raises. */
  lemma FirstFailureAt(engine: Engine, steps: seq<Call>, j: nat)
    requires j <= |steps|
    requires forall i :: 0 <= i < j ==> engine.Answer(steps[i]).None?
    requires j < |steps| ==> engine.Answer(steps[j]).Some?
    ensures FirstFailure(engine, steps) == j
  {
  }

  /** The calls of one stretch: `c1`, and `c2` unless `c1` raised. */
  function StretchCallsOf(engine: Engine, c1: Call, c2: Call): seq<Call> {
    [c1] + (if engine.Answer(c1).Some? then [] else [c2])
  }

  /** The calls of the block, stretch by stretch, none after the first stretch that raised. */
  function BlockCallsOf(engine: Engine, source: Source, opts: Options): seq<Call> {
    var wait := WaitForLoadState("networkidle");
    var launch := StretchCallsOf(engine, Launch, NewPage);
    var load := StretchCallsOf(engine, LoadCall(source), wait);
    var render := StretchCallsOf(engine, RenderPdf(opts), CloseBrowser);
    if StretchError(engine, Launch, NewPage).Some? then launch
    else if StretchError(engine, LoadCall(source), wait).Some? then launch + load
    else launch + load + render
  }

  lemma BlockCalls(engine: Engine, source: Source, opts: Options, id: string)
    ensures Calls(BlockTrace(engine, source, opts, id)) == BlockCallsOf(engine, source, opts)
  {
    var wait := WaitForLoadState("networkidle");
    var launch := StretchTrace(engine, id, "Launching browser", Launch, NewPage);
    var load := StretchTrace(engine, id, LoadText(source), LoadCall(source), wait);
    var render := StretchTrace(engine, id, "Generating PDF", RenderPdf(opts), CloseBrowser);
    StretchCalls(engine, id, "Launching browser", Launch, NewPage);
    StretchCalls(engine, id, LoadText(source), LoadCall(source), wait);
    StretchCalls(engine, id, "Generating PDF", RenderPdf(opts), CloseBrowser);
    CallsConcat(launch, load);
    CallsConcat(launch + load, render);
  }

  /**
   * The block, stretch by stretch, calls exactly the planned steps up to and
   * including the first that raises.
   */
  lemma BlockMatchesPlan(engine: Engine, source: Source, opts: Options)
    ensures BlockCallsOf(engine, source, opts) == Planned(source, opts)[..StepsMade(engine, source, opts)]
  {
    var steps := Planned(source, opts);
    if engine.Answer(Launch).Some? {
      FirstFailureAt(engine, steps, 0);
    } else if engine.Answer(NewPage).Some? {
      FirstFailureAt(engine, steps, 1);
    } else if engine.Answer(LoadCall(source)).Some? {
      FirstFailureAt(engine, steps, 2);
    } else if engine.Answer(WaitForLoadState("networkidle")).Some? {
      FirstFailureAt(engine, steps, 3);
    } else if engine.Answer(RenderPdf(opts)).Some? {
      FirstFailureAt(engine, steps, 4);
    } else if engine.Answer(CloseBrowser).Some? {
      FirstFailureAt(engine, steps, 5);
    } else {
      FirstFailureAt(engine, steps, 6);
      assert steps[..6] == steps;
    }
  }

  /** The block raises the exception of the first planned step that raises, and nothing when none does. */
  lemma BlockErrorIsFirstFailure(engine: Engine, source: Source, opts: Options)
    ensures var steps := Planned(source, opts);
      var k := FirstFailure(engine, steps);
      BlockError(engine, source, opts) == if k < |steps| then engine.Answer(steps[k]) else None
  {
    var steps := Planned(source, opts);
    if engine.Answer(Launch).Some? {
      FirstFailureAt(engine, steps, 0);
    } else if engine.Answer(NewPage).Some? {
      FirstFailureAt(engine, steps, 1);
    } else if engine.Answer(LoadCall(source)).Some? {
      FirstFailureAt(engine, steps, 2);
    } else if engine.Answer(WaitForLoadState("networkidle")).Some? {
      FirstFailureAt(engine, steps, 3);
    } else if engine.Answer(RenderPdf(opts)).Some? {
      FirstFailureAt(engine, steps, 4);
    } else if engine.Answer(CloseBrowser).Some? {
      FirstFailureAt(engine, steps, 5);
    } else {
      FirstFailureAt(engine, steps, 6);
    }
  }

  /** The session trace makes the calls of `SessionCalls`. */
  lemma SessionTraceCalls(engine: Engine, source: Source, opts: Options, id: string)
    ensures Calls(SessionTrace(engine, source, opts, id)) == SessionCalls(engine, source, opts)
  {
    var block := BlockTrace(engine, source, opts, id);
    CallsSingle(Called(StartPlaywright));
    if engine.Answer(StartPlaywright).None? {
      BlockCalls(engine, source, opts, id);
      BlockMatchesPlan(engine, source, opts);
      CallsSingle(Called(StopPlaywright));
      CallsConcat([Called(StartPlaywright)], block);
      CallsConcat([Called(StartPlaywright)] + block, [Called(StopPlaywright)]);
    }
  }

  /** The session trace makes the calls of `SessionCalls`, and every record in it carries the id. */
  lemma SessionTraceFacts(engine: Engine, source: Source, opts: Options, id: string)
    ensures Calls(SessionTrace(engine, source, opts, id)) == SessionCalls(engine, source, opts)
    ensures AllTagged(SessionTrace(engine, source, opts, id), id)
  {
    SessionTraceCalls(engine, source, opts, id);
    SessionLogsAnnounceSteps(engine, source, opts, id);
    AnnouncedTagged(SessionTrace(engine, source, opts, id), id);
  }

  /**
   * The exception a session raises: entering the context's, else leaving
   * it's, else the block's.
   */
  lemma SessionErrorByStage(engine: Engine, source: Source, opts: Options)
    ensures SessionError(engine, source, opts)
         == if engine.Answer(StartPlaywright).Some? then engine.Answer(StartPlaywright)
            else if engine.Answer(StopPlaywright).Some? then engine.Answer(StopPlaywright)
            else BlockError(engine, source, opts)
  {
    BlockErrorIsFirstFailure(engine, source, opts);
  }

  // ---------------------------------------------------------------------
  // The conversion
  // ---------------------------------------------------------------------

  /** Tagged records keep a trace tagged. */
  lemma AllTaggedConcat(a: seq<Event>, b: seq<Event>, id: string)
    requires AllTagged(a, id) && AllTagged(b, id)
    ensures AllTagged(a + b, id)
  {
    forall i | 0 <= i < |a + b| && (a + b)[i].Logged?
      ensures (a + b)[i].record.requestId == id && Occurs(id, (a + b)[i].record.message)
    {
      if i >= |a| {
        assert (a + b)[i] == b[i - |a|];
      }
    }
  }

  /** One awaited Playwright call: record it and return what the engine answers. */
  method Invoke(engine: Engine, c: Call, trace: seq<Event>) returns (err: Option<string>, trace': seq<Event>)
    ensures err == engine.Answer(c)
    ensures trace' == trace + [Called(c)]
  {
    err := engine.Answer(c);
    trace' := trace + [Called(c)];
  }

  /** Write one info line for request `id` to the trace. */
  method Log(id: string, text: string, trace: seq<Event>) returns (trace': seq<Event>)
    ensures trace' == trace + [Logged(Record(Info, id, text, map[]))]
  {
    trace' := trace + [Logged(Record(Info, id, text, map[]))];
  }

  /**
   * One stretch of the block: the log line `text`, then the calls `c1` and
   * `c2`, the second skipped when the first raises.
   */
  method Stretch(engine: Engine, id: string, text: string, c1: Call, c2: Call, trace: seq<Event>)
    returns (err: Option<string>, trace': seq<Event>)
    ensures trace' == trace + StretchTrace(engine, id, text, c1, c2)
    ensures err == StretchError(engine, c1, c2)
  {
    trace' := Log(id, text, trace);
    err, trace' := Invoke(engine, c1, trace');
    if err.Some? {
      return;
    }
    err, trace' := Invoke(engine, c2, trace');
  }

  /**
   * The body of the `async with` block: launch, open a page, load the
   * source, wait for `networkidle`, render with `opts`, close the browser,
   * with a log line before launching, loading and rendering. The first
   * exception skips the remaining steps and is reported.
   */
  method RunSteps(engine: Engine, source: Source, opts: Options, id: string, trace0: seq<Event>)
    returns (err: Option<string>, trace: seq<Event>)
    ensures trace == trace0 + BlockTrace(engine, source, opts, id)
    ensures err == BlockError(engine, source, opts)
  {
    err, trace := Stretch(engine, id, "Launching browser", Launch, NewPage, trace0);
    if err.Some? {
      return;
    }
    err, trace := Stretch(engine, id, LoadText(source), LoadCall(source), WaitForLoadState("networkidle"), trace);
    if err.Some? {
      return;
    }
    err, trace := Stretch(engine, id, "Generating PDF", RenderPdf(opts), CloseBrowser, trace);
  }

  /**
   * The `async with async_playwright() as p:` block as a whole: entering
   * the context, the steps, and leaving the context, which runs on every
   * path once the context was entered. The browser itself is closed
   * explicitly only when rendering succeeded.
   */
  method RunSession(engine: Engine, source: Source, opts: Options, id: string)
    returns (outcome: Result<seq<byte>, string>, trace: seq<Event>)
    ensures trace == SessionTrace(engine, source, opts, id)
    ensures Calls(trace) == SessionCalls(engine, source, opts)
    ensures outcome.Failure? <==> SessionError(engine, source, opts).Some?
    ensures outcome.Failure? ==> outcome.error == SessionError(engine, source, opts).value
    ensures outcome.Success? ==> outcome.value == engine.pdf
    ensures AllTagged(trace, id)
  {
    var err: Option<string>;
    err, trace := Invoke(engine, StartPlaywright, []);
    if err.Some? {
      outcome := Failure(err.value);
    } else {
      err, trace := RunSteps(engine, source, opts, id, trace);
      var exitErr;
      exitErr, trace := Invoke(engine, StopPlaywright, trace);
      if exitErr.Some? {
        err := exitErr;
      }
      outcome := if err.Some? then Failure(err.value) else Success(engine.pdf);
      assert trace == [Called(StartPlaywright)] + BlockTrace(engine, source, opts, id) + [Called(StopPlaywright)];
    }
    assert trace == SessionTrace(engine, source, opts, id);
    SessionTraceFacts(engine, source, opts, id);
    SessionErrorByStage(engine, source, opts);
  }

  /**
   * What one conversion does. The engine calls are those of the session,
   * the result is the rendered bytes exactly when the session raised
   * nothing and otherwise the message the session raised, the first record
   * announces the start with the resolved options before any engine call,
   * the last record reports the byte count or the error, and every record
   * carries the request id. In between lies the session's own trace, with
   * its step announcements.
   */
  ghost predicate Converted(engine: Engine, source: Source, options: Option<Options>,
                            requestId: Option<string>, freshId: string,
                            result: Result<seq<byte>, string>, trace: seq<Event>)
  {
    var id := ChooseRequestId(requestId, freshId);
    var opts := ResolveOptions(options);
    var last := if result.Success? then CompletedRecord(id, |engine.pdf|) else FailedRecord(source, id, result.error);
    && Calls(trace) == SessionCalls(engine, source, opts)
    && (result.Success? <==> SessionError(engine, source, opts).None?)
    && (result.Success? ==> result.value == engine.pdf)
    && (result.Failure? ==> result.error == SessionError(engine, source, opts).value)
    && |trace| >= 2
    && trace[0] == Logged(StartRecord(source, id, opts))
    && trace[|trace| - 1] == Logged(last)
    && trace == [Logged(StartRecord(source, id, opts))] + SessionTrace(engine, source, opts, id) + [Logged(last)]
    && AllTagged(trace, id)
  }

  /**
   * The shared body of `convert_url_to_pdf` and `convert_html_to_pdf`:
   * choose the id, resolve the options, log the start, run the session;
   * then log the size and return the bytes, or log the error and re-raise it.
   */
  method Convert(engine: Engine, source: Source, options: Option<Options>,
                 requestId: Option<string>, freshId: string)
    returns (result: Result<seq<byte>, string>, trace: seq<Event>)
    ensures Converted(engine, source, options, requestId, freshId, result, trace)
  {
    var id := ChooseRequestId(requestId, freshId);
    var opts := ResolveOptions(options);
    var first := StartRecord(source, id, opts);
    var outcome, session := RunSession(engine, source, opts, id);
    var last: LogRecord;
    match outcome {
      case Success(pdf) =>
        last := CompletedRecord(id, |pdf|);
        result := Success(pdf);
      case Failure(e) =>
        last := FailedRecord(source, id, e);
        result := Failure(e);
    }
    trace := [Logged(first)] + session + [Logged(last)];
    Framed(first, session, last, id);
  }

  /**
   * Surrounding a session with the start line and the final line adds no
   * engine call, and keeps the trace tagged when both lines carry the id.
   */
  lemma Framed(first: LogRecord, session: seq<Event>, last: LogRecord, id: string)
    requires AllTagged(session, id)
    requires first.requestId == id && Occurs(id, first.message)
    requires last.requestId == id && Occurs(id, last.message)
    ensures var trace := [Logged(first)] + session + [Logged(last)];
      && Calls(trace) == Calls(session)
      && |trace| >= 2 && trace[0] == Logged(first) && trace[|trace| - 1] == Logged(last)
      && AllTagged(trace, id)
  {
    var start := [Logged(first)];
    assert Calls(start) == [] by {
      assert start[..0] == [];
    }
    CallsConcat(start, session);
    CallsConcat(start + session, [Logged(last)]);
    assert Calls([Logged(last)]) == [] by {
      assert [Logged(last)][..0] == [];
    }
    AllTaggedConcat(start, session, id);
    AllTaggedConcat(start + session, [Logged(last)], id);
  }

  /** `PDFService.convert_url_to_pdf`: the URL flow navigates and never sets content. */
  method ConvertUrlToPdf(engine: Engine, url: string, options: Option<Options>,
                         requestId: Option<string>, freshId: string)
    returns (result: Result<seq<byte>, string>, trace: seq<Event>)
    ensures Converted(engine, FromUrl(url), options, requestId, freshId, result, trace)
    ensures forall c :: c in Calls(trace) ==> !c.SetContent? && (c.Goto? ==> c.url == url)
  {
    result, trace := Convert(engine, FromUrl(url), options, requestId, freshId);
    UrlSessionNeverSetsContent(engine, url, ResolveOptions(options));
  }

  /** `PDFService.convert_html_to_pdf`: the HTML flow sets content and never navigates. */
  method ConvertHtmlToPdf(engine: Engine, html: string, options: Option<Options>,
                          requestId: Option<string>, freshId: string)
    returns (result: Result<seq<byte>, string>, trace: seq<Event>)
    ensures Converted(engine, FromHtml(html), options, requestId, freshId, result, trace)
    ensures forall c :: c in Calls(trace) ==> !c.Goto? && (c.SetContent? ==> c.html == html)
  {
    result, trace := Convert(engine, FromHtml(html), options, requestId, freshId);
    HtmlSessionNeverNavigates(engine, html, ResolveOptions(options));
  }

  // ---------------------------------------------------------------------
  // Properties of the session
  // ---------------------------------------------------------------------

  /** The position of each call in the protocol. */
  function Rank(c: Call): nat {
    match c
    case StartPlaywright => 0
    case Launch => 1
    case NewPage => 2
    case Goto(_) => 3
    case SetContent(_) => 3
    case WaitForLoadState(_) => 4
    case RenderPdf(_) => 5
    case CloseBrowser => 6
    case StopPlaywright => 7
  }

  /** The number of planned steps a session calls. */
  function StepsMade(engine: Engine, source: Source, opts: Options): (m: nat)
    ensures m <= 6
  {
    var k := FirstFailure(engine, Planned(source, opts));
    if k < 6 then k + 1 else 6
  }

  lemma SessionCallsShape(engine: Engine, source: Source, opts: Options)
    requires engine.Answer(StartPlaywright).None?
    ensures SessionCalls(engine, source, opts)
         == [StartPlaywright] + Planned(source, opts)[..StepsMade(engine, source, opts)] + [StopPlaywright]
  {
  }

  /**
   * The calls come in protocol order, each at most once: entering the
   * context, launch, new page, load, wait, render, close, leaving the context.
   */
  lemma SessionCallsInOrder(engine: Engine, source: Source, opts: Options)
    ensures var calls := SessionCalls(engine, source, opts);
      && calls[0] == StartPlaywright
      && forall i, j :: 0 <= i < j < |calls| ==> Rank(calls[i]) < Rank(calls[j])
  {
    if engine.Answer(StartPlaywright).None? {
      var steps := Planned(source, opts);
      var m := StepsMade(engine, source, opts);
      var calls := SessionCalls(engine, source, opts);
      SessionCallsShape(engine, source, opts);
      assert forall i :: 0 <= i < 6 ==> Rank(steps[i]) == i + 1;
      assert |calls| == m + 2;
      assert forall i :: 1 <= i <= m ==> calls[i] == steps[i - 1];
      forall i | 0 <= i < |calls| ensures Rank(calls[i]) == if i == m + 1 then 7 else i {
      }
    }
  }

  /** The URL flow navigates to the given URL and never sets content. */
  lemma UrlSessionNeverSetsContent(engine: Engine, url: string, opts: Options)
    ensures forall c :: c in SessionCalls(engine, FromUrl(url), opts) ==>
              !c.SetContent? && (c.Goto? ==> c.url == url)
  {
    if engine.Answer(StartPlaywright).None? {
      var steps := Planned(FromUrl(url), opts);
      SessionCallsShape(engine, FromUrl(url), opts);
      var m := StepsMade(engine, FromUrl(url), opts);
      assert forall c :: c in steps[..m] ==> c in steps;
    }
  }

  /** The HTML flow sets the given content and never navigates. */
  lemma HtmlSessionNeverNavigates(engine: Engine, html: string, opts: Options)
    ensures forall c :: c in SessionCalls(engine, FromHtml(html), opts) ==>
              !c.Goto? && (c.SetContent? ==> c.html == html)
  {
    if engine.Answer(StartPlaywright).None? {
      var steps := Planned(FromHtml(html), opts);
      SessionCallsShape(engine, FromHtml(html), opts);
      var m := StepsMade(engine, FromHtml(html), opts);
      assert forall c :: c in steps[..m] ==> c in steps;
    }
  }

  /**
   * Once the Playwright context was entered it is always left, whatever
   * step raised: leaving it is the last call, made exactly once.
   */
  lemma ContextAlwaysLeft(engine: Engine, source: Source, opts: Options)
    requires engine.Answer(StartPlaywright).None?
    ensures var calls := SessionCalls(engine, source, opts);
      calls[|calls| - 1] == StopPlaywright && StopPlaywright !in calls[..|calls| - 1]
  {
    SessionCallsShape(engine, source, opts);
  }

  /**
   * `browser.close()` is called exactly when the context was entered and
   * launch, new page, load, wait and render all answered normally; so it
   * always comes after a successful `page.pdf`.
   */
  lemma CloseOnlyAfterRender(engine: Engine, source: Source, opts: Options)
    ensures var steps := Planned(source, opts);
      CloseBrowser in SessionCalls(engine, source, opts) <==>
        engine.Answer(StartPlaywright).None? && forall i :: 0 <= i < 5 ==> engine.Answer(steps[i]).None?
    ensures CloseBrowser in SessionCalls(engine, source, opts) ==>
              RenderPdf(opts) in SessionCalls(engine, source, opts)
  {
    var steps := Planned(source, opts);
    var k := FirstFailure(engine, steps);
    if engine.Answer(StartPlaywright).None? {
      SessionCallsShape(engine, source, opts);
      var m := StepsMade(engine, source, opts);
      if forall i :: 0 <= i < 5 ==> engine.Answer(steps[i]).None? {
        assert k >= 5;
        assert steps[..m] == steps;
      } else {
        assert k < 5;
        assert CloseBrowser !in steps[..m];
      }
    }
  }

  /**
   * A conversion raises nothing exactly when every call it plans answers
   * normally, the explicit close and the context exit included.
   */
  lemma SessionSucceedsIff(engine: Engine, source: Source, opts: Options)
    ensures SessionError(engine, source, opts).None? <==>
      forall c :: c in [StartPlaywright] + Planned(source, opts) + [StopPlaywright] ==> engine.Answer(c).None?
  {
    var steps := Planned(source, opts);
    var all := [StartPlaywright] + steps + [StopPlaywright];
    var k := FirstFailure(engine, steps);
    if SessionError(engine, source, opts).None? {
      assert k == 6;
      forall c | c in all ensures engine.Answer(c).None? {
        var i :| 0 <= i < |all| && all[i] == c;
        if 1 <= i <= 6 {
          assert c == steps[i - 1];
        }
      }
    } else if engine.Answer(StartPlaywright).None? && engine.Answer(StopPlaywright).None? {
      assert k < 6;
      assert steps[k] in all;
    }
  }

  /** The exception a conversion raises is the answer to a call it made. */
  lemma SessionErrorComesFromACall(engine: Engine, source: Source, opts: Options)
    requires SessionError(engine, source, opts).Some?
    ensures exists c :: c in SessionCalls(engine, source, opts) && engine.Answer(c) == SessionError(engine, source, opts)
  {
    var calls := SessionCalls(engine, source, opts);
    if engine.Answer(StartPlaywright).Some? {
      assert calls[0] == StartPlaywright;
    } else {
      SessionCallsShape(engine, source, opts);
      if engine.Answer(StopPlaywright).Some? {
        assert calls[|calls| - 1] == StopPlaywright;
      } else {
        var steps := Planned(source, opts);
        var k := FirstFailure(engine, steps);
        assert calls[k + 1] == steps[k];
      }
    }
  }
}
