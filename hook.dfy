/**
 * The trace-enrichment hook: for a record logged with a context whose span is
 * recording, it copies the span's identifiers into the record, attaches the
 * log line to the span as an event, and marks the span as failed when the
 * level reaches the configured threshold.
 */
module TraceHooks {
  import opened Common
  import opened Otel
  import opened Zerolog
  import Text

  /** Record field names and the span event name. */
  const TraceIDKey := "trace_id"
  const SpanIDKey := "span_id"
  const TraceFlagsKey := "trace_flags"
  const LogEventKey := "log"

  /** Span event attribute keys. */
  const LogSeverityTextKey := "otel.log.severity.text"
  const LogMessageKey := "otel.log.message"

  /** Every zerolog level from TraceLevel to PanicLevel, in increasing order. */
  const AllLevel: seq<ZLevel> := [TraceLevel, DebugLevel, InfoLevel, WarnLevel, ErrorLevel, FatalLevel, PanicLevel]

  lemma AllLevelIsTraceToPanic()
    ensures forall i, j :: 0 <= i < j < |AllLevel| ==> AllLevel[i] < AllLevel[j]
    ensures forall z: ZLevel :: z in AllLevel <==> TraceLevel <= z <= PanicLevel
  {
  }

  datatype TraceHookConfig = TraceHookConfig(
    recordStackTraceInSpan: bool,
    enableLevels: seq<ZLevel>,
    errorSpanLevel: ZLevel)

  /** OtelSeverityText: zerolog's name for the level, upper-cased, with no alias rewriting. */
  function OtelSeverityText(lv: ZLevel): (s: string)
    ensures |s| == |LevelName(lv)|
    ensures forall i :: 0 <= i < |s| ==> !Text.IsAsciiLower(s[i])
    ensures Text.ToLower(s) == LevelName(lv)
  {
    LevelNameHasNoUpper(lv);
    Text.LowerUndoesUpper(LevelName(lv));
    Text.ToUpper(LevelName(lv))
  }

  lemma LevelNameHasNoUpper(z: ZLevel)
    ensures forall i :: 0 <= i < |LevelName(z)| ==> !Text.IsAsciiUpper(LevelName(z)[i])
  {
  }

  /** The severity texts of the named levels; WarnLevel stays "WARN". */
  lemma OtelSeverityTextNamed(z: ZLevel)
    requires TraceLevel <= z <= PanicLevel
    ensures OtelSeverityText(z) ==
              if z == TraceLevel then "TRACE"
              else if z == DebugLevel then "DEBUG"
              else if z == InfoLevel then "INFO"
              else if z == WarnLevel then "WARN"
              else if z == ErrorLevel then "ERROR"
              else if z == FatalLevel then "FATAL"
              else "PANIC"
  {
  }

  /** The fields the hook adds to a record logged with ctx. */
  function TraceFields(ctx: Option<Context>): (fs: seq<Field>)
    ensures !Recording(ctx) ==> fs == []
    ensures Recording(ctx) ==> |fs| == 3 && fs[0].key == TraceIDKey && fs[1].key == SpanIDKey && fs[2].key == TraceFlagsKey
    ensures Recording(ctx) ==> fs[0].value == ctx.value.span.traceID && fs[1].value == ctx.value.span.spanID &&
                               fs[2].value == ctx.value.span.traceFlags
  {
    if Recording(ctx) then
      var sp := ctx.value.span;
      [Field(TraceIDKey, sp.traceID), Field(SpanIDKey, sp.spanID), Field(TraceFlagsKey, sp.traceFlags)]
    else []
  }

  /** The span event that carries a log line: named "log", with the message and then the severity text. */
  function LogEvent(level: ZLevel, message: string): (ev: SpanEvent)
    ensures ev.name == LogEventKey && |ev.attrs| == 2
    ensures ev.attrs[0] == Attr(LogMessageKey, message)
    ensures ev.attrs[1] == Attr(LogSeverityTextKey, OtelSeverityText(level))
    ensures Text.ToLower(ev.attrs[1].value) == LevelName(level)
  {
    SpanEvent(LogEventKey, [Attr(LogMessageKey, message), Attr(LogSeverityTextKey, OtelSeverityText(level))])
  }

  /** What the hook does to a span's state, for a span that is or is not recording. */
  function TraceStep(cfg: TraceHookConfig, recording: bool, level: ZLevel, message: string, st: SpanState): (r: SpanState)
    ensures !recording ==> r == st
    ensures recording ==> r.events == st.events + [LogEvent(level, message)]
    ensures recording && level >= cfg.errorSpanLevel ==>
              r.status == Status(Error, message) &&
              r.errors == st.errors + [RecordedError(message, cfg.recordStackTraceInSpan)]
    ensures level < cfg.errorSpanLevel ==> r.status == st.status && r.errors == st.errors
  {
    if !recording then st
    else if level >= cfg.errorSpanLevel then
      SpanState(st.events + [LogEvent(level, message)], Status(Error, message),
                st.errors + [RecordedError(message, cfg.recordStackTraceInSpan)])
    else
      st.(events := st.events + [LogEvent(level, message)])
  }

  datatype TraceHook = TraceHook(cfg: TraceHookConfig) {

    /** Levels reports the configured levels as they are. */
    function Levels(): (ls: seq<ZLevel>)
      ensures ls == cfg.enableLevels
    {
      cfg.enableLevels
    }

    /**
     * Run: a no-op without a context or without a recording span; otherwise
     * appends trace_id, span_id and trace_flags, adds one "log" event to the
     * span, and at or above errorSpanLevel sets error status and records an error.
     */
    method Run(e: Event, level: ZLevel, message: string)
      modifies e, SpanSet(e.ctx)
      ensures e.fields == old(e.fields) + TraceFields(e.ctx)
      ensures forall s | s in SpanSet(e.ctx) ::
                s.State() == TraceStep(cfg, s.recording, level, message, old(s.State()))
    {
      if e.ctx.None? {
        return;
      }
      var span := e.ctx.value.span;
      if span == null || !span.recording {
        return;
      }
      e.Str(TraceIDKey, span.traceID);
      e.Str(SpanIDKey, span.spanID);
      e.Str(TraceFlagsKey, span.traceFlags);
      assert e.fields == old(e.fields) + TraceFields(e.ctx);
      var ev := LogEvent(level, message);
      span.AddEvent(ev.name, ev.attrs);
      if level >= cfg.errorSpanLevel {
        span.SetStatus(Error, message);
        span.RecordError(message, cfg.recordStackTraceInSpan);
      }
    }
  }

  /** NewTraceHook wraps the configuration as given. */
  function NewTraceHook(cfg: TraceHookConfig): (h: TraceHook)
    ensures h.cfg == cfg
    ensures h.Levels() == cfg.enableLevels
  {
    TraceHook(cfg)
  }
}
