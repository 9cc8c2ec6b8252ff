/**
 * The parts of OpenTelemetry and context.Context the trace hook uses: a span
 * with its identifiers (opaque strings) and the three calls the hook makes on
 * it, and a context that may carry a span and keyed values.
 */
module Otel {
  import Common

  /** An attribute key/value pair attached to a span event. */
  datatype Attr = Attr(key: string, value: string)

  datatype SpanEvent = SpanEvent(name: string, attrs: seq<Attr>)

  /** go.opentelemetry.io/otel/codes. */
  datatype StatusCode = Unset | Error | Ok

  datatype Status = Status(code: StatusCode, description: string)

  /** An error recorded on a span: its message and whether a stack trace was captured. */
  datatype RecordedError = RecordedError(message: string, withStackTrace: bool)

  /** What the hook can change on a span. */
  datatype SpanState = SpanState(events: seq<SpanEvent>, status: Status, errors: seq<RecordedError>)

  /**
   * A span. Its identifiers and whether it records are fixed when it is
   * started; events, status and errors change through the three calls below.
   */
  class Span {
    const recording: bool
    const traceID: string
    const spanID: string
    const traceFlags: string
    var events: seq<SpanEvent>
    var status: Status
    var errors: seq<RecordedError>

    constructor (recording: bool, traceID: string, spanID: string, traceFlags: string)
      ensures this.recording == recording && this.traceID == traceID
      ensures this.spanID == spanID && this.traceFlags == traceFlags
      ensures State() == SpanState([], Status(Unset, ""), [])
    {
      this.recording := recording;
      this.traceID := traceID;
      this.spanID := spanID;
      this.traceFlags := traceFlags;
      events := [];
      status := Status(Unset, "");
      errors := [];
    }

    function State(): SpanState
      reads this
    {
      SpanState(events, status, errors)
    }

    method AddEvent(name: string, attrs: seq<Attr>)
      modifies this
      ensures State() == old(State()).(events := old(events) + [SpanEvent(name, attrs)])
    {
      events := events + [SpanEvent(name, attrs)];
    }

    method SetStatus(code: StatusCode, description: string)
      modifies this
      ensures State() == old(State()).(status := Status(code, description))
    {
      status := Status(code, description);
    }

    method RecordError(message: string, withStackTrace: bool)
      modifies this
      ensures State() == old(State()).(errors := old(errors) + [RecordedError(message, withStackTrace)])
    {
      errors := errors + [RecordedError(message, withStackTrace)];
    }
  }

  /** A value stored in a context: a string or anything else. */
  datatype CtxValue = StrValue(s: string) | OtherValue(tag: int)

  /** context.Context: the span it carries (null when none) and its keyed values. */
  datatype Context = Context(span: Span?, values: map<string, CtxValue>)

  /** The spans a call that receives ctx may touch. */
  function SpanSet(ctx: Common.Option<Context>): set<Span>
  {
    if ctx.Some? && ctx.value.span != null then {ctx.value.span} else {}
  }

  /** trace.SpanFromContext(ctx).IsRecording(): a missing span is the non-recording no-op span. */
  predicate Recording(ctx: Common.Option<Context>)
  {
    ctx.Some? && ctx.value.span != null && ctx.value.span.recording
  }
}
