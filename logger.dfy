/**
 * DefaultLogger: the facade over a zerolog logger. It keeps the backend
 * logger, the output it was last given, the level it was last given and the
 * options it was built with; every entry point writes one record at a fixed
 * zerolog level, after the registered hooks have run in order.
 */
module Logger {
  import opened Common
  import opened Otel
  import opened Zerolog
  import opened Sinks
  import opened Levels
  import opened TraceHooks
  import Text

  /** Record field that carries the request id, and the context key it is read from. */
  const LogIDKey := "request_id"
  const ReqIDKey := "X-Request-ID"

  /**
   * Time layout (Go reference-time notation) of the console writer, the
   * initial default logger and InitOceanLog.
   */
  const TimestampLayout := "2006-01-02 15:04:05"

  // ---------------------------------------------------------------------
  // Hooks

  /**
   * A hook registered on the backend logger: the request-id hook, a trace
   * hook, or a caller-supplied hook, modelled as appending fixed fields.
   */
  datatype Hook =
    | RequestIDHook
    | TraceEnrichment(hook: TraceHook)
    | UserHook(adds: seq<Field>)

  /** The fields the request-id hook adds: the string under "X-Request-ID", if there is one. */
  function RequestIDFields(ctx: Option<Context>): (fs: seq<Field>)
    ensures |fs| <= 1
    ensures fs != [] <==> ctx.Some? && ReqIDKey in ctx.value.values && ctx.value.values[ReqIDKey].StrValue?
    ensures fs != [] ==> fs[0] == Field(LogIDKey, ctx.value.values[ReqIDKey].s)
  {
    if ctx.None? then []
    else if ReqIDKey in ctx.value.values && ctx.value.values[ReqIDKey].StrValue? then
      [Field(LogIDKey, ctx.value.values[ReqIDKey].s)]
    else []
  }

  /** The request-id hook New registers. */
  method RunRequestID(e: Event)
    modifies e
    ensures e.fields == old(e.fields) + RequestIDFields(e.ctx)
  {
    if e.ctx.None? {
      return;
    }
    var values := e.ctx.value.values;
    if ReqIDKey in values && values[ReqIDKey].StrValue? {
      e.Str(LogIDKey, values[ReqIDKey].s);
    }
  }

  /** The fields one hook adds to a record logged with ctx. */
  function HookFields(h: Hook, ctx: Option<Context>): seq<Field>
  {
    match h
    case RequestIDHook => RequestIDFields(ctx)
    case TraceEnrichment(_) => TraceFields(ctx)
    case UserHook(adds) => adds
  }

  /** The fields a list of hooks adds, in hook order. */
  function HooksFields(hs: seq<Hook>, ctx: Option<Context>): seq<Field>
  {
    if hs == [] then [] else HooksFields(hs[..|hs| - 1], ctx) + HookFields(hs[|hs| - 1], ctx)
  }

  /** What one hook does to the span of the context. */
  function HookSpan(h: Hook, recording: bool, level: ZLevel, message: string, st: SpanState): SpanState
  {
    match h
    case TraceEnrichment(th) => TraceStep(th.cfg, recording, level, message, st)
    case _ => st
  }

  /** What a list of hooks does to the span, in hook order. */
  function HooksSpan(hs: seq<Hook>, recording: bool, level: ZLevel, message: string, st: SpanState): SpanState
  {
    if hs == [] then st
    else HookSpan(hs[|hs| - 1], recording, level, message, HooksSpan(hs[..|hs| - 1], recording, level, message, st))
  }

  /** The fields caller-supplied hooks add, in order. */
  function UserFields(hs: seq<Hook>): seq<Field>
  {
    if hs == [] then [] else UserFields(hs[..|hs| - 1]) + (if hs[|hs| - 1].UserHook? then hs[|hs| - 1].adds else [])
  }

  method RunHook(h: Hook, e: Event, level: ZLevel, message: string)
    modifies e, SpanSet(e.ctx)
    ensures e.fields == old(e.fields) + HookFields(h, e.ctx)
    ensures forall s | s in SpanSet(e.ctx) :: s.State() == HookSpan(h, s.recording, level, message, old(s.State()))
  {
    match h
    case RequestIDHook =>
      RunRequestID(e);
    case TraceEnrichment(th) =>
      th.Run(e, level, message);
    case UserHook(adds) =>
      e.fields := e.fields + adds;
  }

  /** Runs the hooks of an event one after the other, as zerolog does when the event is written. */
  method RunHooks(hs: seq<Hook>, e: Event, level: ZLevel, message: string)
    modifies e, SpanSet(e.ctx)
    ensures e.fields == old(e.fields) + HooksFields(hs, e.ctx)
    ensures forall s | s in SpanSet(e.ctx) :: s.State() == HooksSpan(hs, s.recording, level, message, old(s.State()))
  {
    var i := 0;
    while i < |hs|
      invariant 0 <= i <= |hs|
      invariant e.fields == old(e.fields) + HooksFields(hs[..i], e.ctx)
      invariant forall s | s in SpanSet(e.ctx) :: s.State() == HooksSpan(hs[..i], s.recording, level, message, old(s.State()))
    {
      RunHook(hs[i], e, level, message);
      assert hs[..i + 1][..i] == hs[..i];
      i := i + 1;
    }
    assert hs[..|hs|] == hs;
  }

  lemma {:induction false} HooksFieldsAppend(a: seq<Hook>, b: seq<Hook>, ctx: Option<Context>)
    ensures HooksFields(a + b, ctx) == HooksFields(a, ctx) + HooksFields(b, ctx)
    decreases |b|
  {
    if b == [] {
      assert a + b == a;
    } else {
      var init := b[..|b| - 1];
      var last := b[|b| - 1];
      assert (a + b)[..|a + b| - 1] == a + init;
      assert (a + b)[|a + b| - 1] == last;
      calc {
        HooksFields(a + b, ctx);
        HooksFields(a + init, ctx) + HookFields(last, ctx);
        { HooksFieldsAppend(a, init, ctx); }
        HooksFields(a, ctx) + HooksFields(init, ctx) + HookFields(last, ctx);
        HooksFields(a, ctx) + (HooksFields(init, ctx) + HookFields(last, ctx));
        HooksFields(a, ctx) + HooksFields(b, ctx);
      }
    }
  }

  /** Without a context only caller-supplied hooks add fields. */
  lemma {:induction false} HooksFieldsWithoutContext(hs: seq<Hook>)
    ensures HooksFields(hs, None) == UserFields(hs)
  {
    if hs != [] {
      HooksFieldsWithoutContext(hs[..|hs| - 1]);
    }
  }

  lemma {:induction false} HooksSpanAppend(a: seq<Hook>, b: seq<Hook>, recording: bool, level: ZLevel, message: string, st: SpanState)
    ensures HooksSpan(a + b, recording, level, message, st) ==
            HooksSpan(b, recording, level, message, HooksSpan(a, recording, level, message, st))
    decreases |b|
  {
    if b == [] {
      assert a + b == a;
    } else {
      assert (a + b)[..|a + b| - 1] == a + b[..|b| - 1];
      HooksSpanAppend(a, b[..|b| - 1], recording, level, message, st);
    }
  }

  /** Hooks that are not trace hooks leave the span alone. */
  lemma {:induction false} HooksSpanWithoutTraceHook(hs: seq<Hook>, recording: bool, level: ZLevel, message: string, st: SpanState)
    requires forall i :: 0 <= i < |hs| ==> !hs[i].TraceEnrichment?
    ensures HooksSpan(hs, recording, level, message, st) == st
  {
    if hs != [] {
      HooksSpanWithoutTraceHook(hs[..|hs| - 1], recording, level, message, st);
    }
  }

  // ---------------------------------------------------------------------
  // The backend logger and the construction options

  /**
   * A zerolog.Logger value: its writer, its threshold, the fields bound to it
   * (With().…Logger()), its hooks, the caller skip depth and timestamp layout.
   */
  datatype ZeroLogger = ZeroLogger(
    w: Writer,
    level: ZLevel,
    fields: seq<Field>,
    hooks: seq<Hook>,
    callerSkip: Option<int>,
    timestampFormat: Option<string>)

  /** zerolog.New(os.Stdout).With().CallerWithSkipFrameCount(4).Logger(). */
  function NewBackend(): (zl: ZeroLogger)
    ensures zl.w == Stdout && zl.level == TraceLevel && zl.hooks == [] && zl.fields == []
    ensures zl.callerSkip == Some(4)
  {
    ZeroLogger(Stdout, TraceLevel, [], [], Some(4), None)
  }

  /** A construction option (Opt). */
  datatype Opt =
    | WithOutput(w: Writer)
    | WithLevel(level: Level)
    | WithFormattedTimestamp(format: string)
    | WithHook(hook: Hook)
    | WithHookFunc(hook: Hook)

  /** The change one option makes to the backend logger. */
  function ApplyOpt(zl: ZeroLogger, o: Opt): ZeroLogger
  {
    match o
    case WithOutput(w) => zl.(w := w)
    case WithLevel(lv) => zl.(level := MatchHlogLevel(lv))
    case WithFormattedTimestamp(f) => zl.(timestampFormat := Some(f))
    case WithHook(h) => zl.(hooks := zl.hooks + [h])
    case WithHookFunc(h) => zl.(hooks := zl.hooks + [h])
  }

  /** The options applied in the order given. */
  function ApplyOpts(zl: ZeroLogger, opts: seq<Opt>): ZeroLogger
  {
    if opts == [] then zl else ApplyOpt(ApplyOpts(zl, opts[..|opts| - 1]), opts[|opts| - 1])
  }

  /** The hooks a list of options registers, in order. */
  function OptHooks(opts: seq<Opt>): seq<Hook>
  {
    if opts == [] then []
    else
      var o := opts[|opts| - 1];
      OptHooks(opts[..|opts| - 1]) + (if o.WithHook? || o.WithHookFunc? then [o.hook] else [])
  }

  /** Options register their hooks after the hooks already on the logger, in option order. */
  lemma {:induction false} ApplyOptsHooks(zl: ZeroLogger, opts: seq<Opt>)
    ensures ApplyOpts(zl, opts).hooks == zl.hooks + OptHooks(opts)
    ensures ApplyOpts(zl, opts).fields == zl.fields
  {
    if opts != [] {
      ApplyOptsHooks(zl, opts[..|opts| - 1]);
    }
  }

  /** Without a WithLevel option the backend keeps its threshold. */
  lemma {:induction false} ApplyOptsKeepsLevel(zl: ZeroLogger, opts: seq<Opt>)
    requires forall i :: 0 <= i < |opts| ==> !opts[i].WithLevel?
    ensures ApplyOpts(zl, opts).level == zl.level
  {
    if opts != [] {
      ApplyOptsKeepsLevel(zl, opts[..|opts| - 1]);
    }
  }

  /** The last WithLevel option decides the backend threshold. */
  lemma {:induction false} ApplyOptsLastLevelWins(zl: ZeroLogger, opts: seq<Opt>, k: nat)
    requires k < |opts| && opts[k].WithLevel?
    requires forall i :: k < i < |opts| ==> !opts[i].WithLevel?
    ensures ApplyOpts(zl, opts).level == MatchHlogLevel(opts[k].level)
  {
    if k < |opts| - 1 {
      ApplyOptsLastLevelWins(zl, opts[..|opts| - 1], k);
    }
  }

  /** The last WithOutput option decides the backend writer. */
  lemma {:induction false} ApplyOptsLastOutputWins(zl: ZeroLogger, opts: seq<Opt>, k: nat)
    requires k < |opts| && opts[k].WithOutput?
    requires forall i :: k < i < |opts| ==> !opts[i].WithOutput?
    ensures ApplyOpts(zl, opts).w == opts[k].w
  {
    if k < |opts| - 1 {
      ApplyOptsLastOutputWins(zl, opts[..|opts| - 1], k);
    }
  }

  lemma {:induction false} OptHooksAppend(a: seq<Opt>, b: seq<Opt>)
    ensures OptHooks(a + b) == OptHooks(a) + OptHooks(b)
    decreases |b|
  {
    if b == [] {
      assert a + b == a;
    } else {
      assert (a + b)[..|a + b| - 1] == a + b[..|b| - 1];
      OptHooksAppend(a, b[..|b| - 1]);
    }
  }

  /** The trace hook configuration New installs. */
  const DefaultTraceHookConfig := TraceHookConfig(true, AllLevel, ErrorLevel)

  /** New's trace hook records stack traces, is enabled for every level and marks spans failed from ErrorLevel. */
  lemma DefaultTraceHookSettings()
    ensures DefaultTraceHookConfig.recordStackTraceInSpan
    ensures forall z: ZLevel :: z in DefaultTraceHookConfig.enableLevels <==> TraceLevel <= z <= PanicLevel
    ensures DefaultTraceHookConfig.errorSpanLevel == ErrorLevel
  {
    AllLevelIsTraceToPanic();
  }

  /** The option list New passes on: the caller's options, the request-id hook, the trace hook. */
  function NewOptions(options: seq<Opt>): (r: seq<Opt>)
    ensures |r| == |options| + 2 && r[..|options|] == options
    ensures r[|options|] == WithHookFunc(RequestIDHook)
    ensures r[|options| + 1] == WithHook(TraceEnrichment(TraceHook(DefaultTraceHookConfig)))
  {
    options + [WithHookFunc(RequestIDHook), WithHook(TraceEnrichment(NewTraceHook(DefaultTraceHookConfig)))]
  }

  /** New's backend runs the caller's hooks first, then the request-id hook, then the trace hook. */
  lemma NewHookOrder(options: seq<Opt>)
    ensures ApplyOpts(NewBackend(), NewOptions(options)).hooks ==
            OptHooks(options) + [RequestIDHook, TraceEnrichment(TraceHook(DefaultTraceHookConfig))]
    ensures TraceHook(DefaultTraceHookConfig).Levels() == AllLevel
  {
    var tail := [WithHookFunc(RequestIDHook), WithHook(TraceEnrichment(NewTraceHook(DefaultTraceHookConfig)))];
    ApplyOptsHooks(NewBackend(), NewOptions(options));
    OptHooksAppend(options, tail);
    assert tail[..1] == [WithHookFunc(RequestIDHook)];
    assert OptHooks(tail[..1][..0]) == [];
  }

  /**
   * In a record written through New's backend, the caller's hook fields come
   * first, then request_id (if the context has one), then the three trace fields.
   */
  lemma NewRecordFieldOrder(options: seq<Opt>, ctx: Option<Context>)
    ensures HooksFields(ApplyOpts(NewBackend(), NewOptions(options)).hooks, ctx) ==
            HooksFields(OptHooks(options), ctx) + RequestIDFields(ctx) + TraceFields(ctx)
  {
    NewHookOrder(options);
    BuiltInHookFields(OptHooks(options), TraceEnrichment(TraceHook(DefaultTraceHookConfig)), ctx);
  }

  /** The request-id hook and a trace hook after any hooks add request_id, then the trace fields. */
  lemma BuiltInHookFields(user: seq<Hook>, trace: Hook, ctx: Option<Context>)
    requires trace.TraceEnrichment?
    ensures HooksFields(user + [RequestIDHook, trace], ctx) == HooksFields(user, ctx) + RequestIDFields(ctx) + TraceFields(ctx)
  {
    var pair := [RequestIDHook, trace];
    var u, r, t := HooksFields(user, ctx), RequestIDFields(ctx), TraceFields(ctx);
    HooksFieldsAppend(user, pair, ctx);
    PairFields(trace, ctx);
    assert u + (r + t) == u + r + t;
  }

  lemma PairFields(trace: Hook, ctx: Option<Context>)
    requires trace.TraceEnrichment?
    ensures HooksFields([RequestIDHook, trace], ctx) == RequestIDFields(ctx) + TraceFields(ctx)
  {
    var pair := [RequestIDHook, trace];
    assert pair[..1] == [RequestIDHook];
    assert [RequestIDHook][..0] == [];
    calc {
      HooksFields(pair, ctx);
      HooksFields([RequestIDHook], ctx) + HookFields(trace, ctx);
      HooksFields([], ctx) + HookFields(RequestIDHook, ctx) + HookFields(trace, ctx);
      RequestIDFields(ctx) + TraceFields(ctx);
    }
  }

  /**
   * When the caller registers no trace hook, what New's hooks do to a span is
   * exactly one trace-hook step with threshold Error and stack capture on.
   */
  lemma NewSpanEffect(options: seq<Opt>, recording: bool, level: ZLevel, message: string, st: SpanState)
    requires forall i :: 0 <= i < |OptHooks(options)| ==> !OptHooks(options)[i].TraceEnrichment?
    ensures HooksSpan(ApplyOpts(NewBackend(), NewOptions(options)).hooks, recording, level, message, st) ==
            TraceStep(DefaultTraceHookConfig, recording, level, message, st)
  {
    var trace := TraceEnrichment(TraceHook(DefaultTraceHookConfig));
    NewHookOrder(options);
    HooksSpanAppend(OptHooks(options), [RequestIDHook, trace], recording, level, message, st);
    HooksSpanWithoutTraceHook(OptHooks(options), recording, level, message, st);
    assert [RequestIDHook, trace][..1] == [RequestIDHook];
    assert HooksSpan([RequestIDHook], recording, level, message, st) == st;
  }

  // ---------------------------------------------------------------------
  // Level dispatch

  /** The zerolog level the Log, Logf and CtxLogf switches write at. */
  function BackendLevel(level: Level): (z: ZLevel)
    ensures DebugLevel <= z <= FatalLevel
  {
    match level
    case LevelTrace => DebugLevel
    case LevelDebug => DebugLevel
    case LevelInfo => InfoLevel
    case LevelNotice => WarnLevel
    case LevelWarn => WarnLevel
    case LevelError => ErrorLevel
    case LevelFatal => FatalLevel
    case LevelUnknown(_) => WarnLevel
  }

  /**
   * The dispatch switch agrees with matchHlogLevel on every level except
   * Trace, which it writes at DebugLevel rather than TraceLevel.
   */
  lemma BackendLevelAgreesWithTable(level: Level)
    ensures BackendLevel(level) == if level == LevelTrace then DebugLevel else MatchHlogLevel(level)
  {
  }

  /** The 21 entry points: seven levels, each plain, formatted and context-bound. */
  datatype EntryPoint =
    | Trace | Debug | Info | Notice | Warn | Error | Fatal
    | Tracef | Debugf | Infof | Noticef | Warnf | Errorf | Fatalf
    | CtxTracef | CtxDebugf | CtxInfof | CtxNoticef | CtxWarnf | CtxErrorf | CtxFatalf

  /** Which of Log, Logf and CtxLogf an entry point calls, and with which level. */
  datatype Route = ViaLog(level: Level) | ViaLogf(level: Level) | ViaCtxLogf(level: Level)

  /** Plain entry points go through Log, formatted ones through Logf, Ctx ones through CtxLogf. */
  function RouteOf(e: EntryPoint): (r: Route)
    ensures r.ViaLog? <==> e in {Trace, Debug, Info, Notice, Warn, EntryPoint.Error, Fatal}
    ensures r.ViaLogf? <==> e in {Tracef, Debugf, Infof, Noticef, Warnf, Errorf, Fatalf}
    ensures r.ViaCtxLogf? <==> e in {CtxTracef, CtxDebugf, CtxInfof, CtxNoticef, CtxWarnf, CtxErrorf, CtxFatalf}
    ensures !r.level.LevelUnknown?
  {
    match e
    case Trace => ViaLog(LevelTrace)
    case Debug => ViaLog(LevelDebug)
    case Info => ViaLog(LevelInfo)
    case Notice => ViaLog(LevelNotice)
    case Warn => ViaLog(LevelWarn)
    case Error => ViaLog(LevelError)
    case Fatal => ViaLog(LevelFatal)
    case Tracef => ViaLogf(LevelTrace)
    case Debugf => ViaLogf(LevelDebug)
    case Infof => ViaLogf(LevelInfo)
    case Noticef => ViaLogf(LevelWarn)
    case Warnf => ViaLogf(LevelWarn)
    case Errorf => ViaLogf(LevelError)
    case Fatalf => ViaLogf(LevelError)
    case CtxTracef => ViaCtxLogf(LevelTrace)
    case CtxDebugf => ViaCtxLogf(LevelDebug)
    case CtxInfof => ViaCtxLogf(LevelInfo)
    case CtxNoticef => ViaCtxLogf(LevelNotice)
    case CtxWarnf => ViaCtxLogf(LevelWarn)
    case CtxErrorf => ViaCtxLogf(LevelError)
    case CtxFatalf => ViaCtxLogf(LevelFatal)
  }

  /** The zerolog level an entry point writes at. */
  function EntryLevel(e: EntryPoint): ZLevel
  {
    BackendLevel(RouteOf(e).level)
  }

  /** The context an entry point's record carries: only the Ctx variants pass one on. */
  function EntryCtx(e: EntryPoint, ctx: Option<Context>): Option<Context>
  {
    if RouteOf(e).ViaCtxLogf? then ctx else None
  }

  /**
   * The level table of the entry points: Trace writes at debug, Notice at warn,
   * Fatalf at error (not fatal), while CtxNoticef and CtxFatalf keep their own levels.
   */
  lemma EntryLevelTable(e: EntryPoint)
    ensures EntryLevel(e) == DebugLevel <==> e in {Trace, Tracef, CtxTracef, Debug, Debugf, CtxDebugf}
    ensures EntryLevel(e) == InfoLevel <==> e in {Info, Infof, CtxInfof}
    ensures EntryLevel(e) == WarnLevel <==> e in {Notice, Noticef, CtxNoticef, Warn, Warnf, CtxWarnf}
    ensures EntryLevel(e) == ErrorLevel <==> e in {EntryPoint.Error, Errorf, CtxErrorf, Fatalf}
    ensures EntryLevel(e) == FatalLevel <==> e in {Fatal, CtxFatalf}
  {
  }

  /** Noticef passes LevelWarn and Fatalf passes LevelError; CtxNoticef and CtxFatalf pass their own levels. */
  lemma WrapperQuirks()
    ensures RouteOf(Noticef) == ViaLogf(LevelWarn) && RouteOf(Fatalf) == ViaLogf(LevelError)
    ensures RouteOf(CtxNoticef) == ViaCtxLogf(LevelNotice) && RouteOf(CtxFatalf) == ViaCtxLogf(LevelFatal)
    ensures RouteOf(Notice) == ViaLog(LevelNotice) && RouteOf(Fatal) == ViaLog(LevelFatal)
  {
  }

  /** Every entry point writes at a level in DebugLevel..FatalLevel; only Error- and Fatal-family entries reach ErrorLevel. */
  lemma EntryLevelRange(e: EntryPoint)
    ensures DebugLevel <= EntryLevel(e) <= FatalLevel
    ensures EntryLevel(e) >= ErrorLevel <==> e in {EntryPoint.Error, Errorf, CtxErrorf, Fatal, Fatalf, CtxFatalf}
  {
  }

  // ---------------------------------------------------------------------
  // Emission

  /** A record together with the writer it goes to. */
  datatype Emission = Emission(writer: Writer, record: Record)

  /**
   * What the backend logger writes for a message at level zl with context ctx:
   * nothing below its threshold, otherwise one record carrying the bound
   * fields followed by the fields the hooks add.
   */
  function Written(zl: ZeroLogger, level: ZLevel, ctx: Option<Context>, message: string): (em: Option<Emission>)
    ensures em.Some? <==> zl.level <= level
    ensures em.Some? ==> em.value.writer == zl.w && em.value.record.level == level && em.value.record.message == message
    ensures em.Some? ==> em.value.record.fields == zl.fields + HooksFields(zl.hooks, ctx)
  {
    if zl.level <= level then Some(Emission(zl.w, Record(level, zl.fields + HooksFields(zl.hooks, ctx), message)))
    else None
  }

  /** What writing does to the context's span: the hooks' effect if the record is written, nothing otherwise. */
  function SpanAfter(zl: ZeroLogger, level: ZLevel, message: string, recording: bool, st: SpanState): SpanState
  {
    if zl.level <= level then HooksSpan(zl.hooks, recording, level, message, st) else st
  }

  /** The state of a DefaultLogger as a value (what GetLogger copies out). */
  datatype LoggerValue = LoggerValue(log: ZeroLogger, out: Option<Writer>, level: ZLevel, options: seq<Opt>)

  /** SetLevel's effect on a logger's state. */
  function SetLevelValue(v: LoggerValue, lv: Level): LoggerValue
  {
    var z := MatchHlogLevel(lv);
    v.(level := z, log := v.log.(level := z))
  }

  /** Setting the same level twice leaves the same state as setting it once. */
  lemma SetLevelIdempotent(v: LoggerValue, lv: Level)
    ensures SetLevelValue(SetLevelValue(v, lv), lv) == SetLevelValue(v, lv)
  {
  }

  /** After SetLevel(lv), a message is written iff its level reaches matchHlogLevel(lv). */
  lemma SetLevelThreshold(v: LoggerValue, lv: Level, level: ZLevel, ctx: Option<Context>, message: string)
    ensures Written(SetLevelValue(v, lv).log, level, ctx, message).Some? <==> MatchHlogLevel(lv) <= level
  {
  }

  /** A record logged without a context through New's backend holds only the caller hooks' fields. */
  lemma NewRecordWithoutContext(options: seq<Opt>)
    ensures HooksFields(ApplyOpts(NewBackend(), NewOptions(options)).hooks, None) == UserFields(OptHooks(options))
  {
    NewRecordFieldOrder(options, None);
    HooksFieldsWithoutContext(OptHooks(options));
  }

  class DefaultLogger {
    var log: ZeroLogger
    var out: Option<Writer>
    var level: ZLevel
    var options: seq<Opt>

    /** newLogger: applies the options to the backend logger; out starts as nil. */
    constructor (log: ZeroLogger, options: seq<Opt>)
      ensures this.log == ApplyOpts(log, options)
      ensures out == None && level == ApplyOpts(log, options).level && this.options == options
    {
      var built := ApplyOpts(log, options);
      this.log := built;
      out := None;
      level := built.level;
      this.options := options;
    }

    function Value(): LoggerValue
      reads this
    {
      LoggerValue(log, out, level, options)
    }

    /** SetLevel: the stored level and the backend threshold both become matchHlogLevel(lv). */
    method SetLevel(lv: Level)
      modifies this
      ensures Value() == SetLevelValue(old(Value()), lv)
      ensures level == log.level == MatchHlogLevel(lv)
    {
      var lvl := MatchHlogLevel(lv);
      level := lvl;
      log := log.(level := lvl);
    }

    /** SetOutput: replaces the output and the backend writer; nothing else changes. */
    method SetOutput(w: Writer)
      modifies this
      ensures out == Some(w) && log == old(log).(w := w)
      ensures level == old(level) && options == old(options)
    {
      out := Some(w);
      log := log.(w := w);
    }

    /** WithField: binds one more field to the backend logger and returns a copy of the result. */
    method WithField(key: string, value: string) returns (copy: LoggerValue)
      modifies this
      ensures log == old(log).(fields := old(log.fields) + [Field(key, value)])
      ensures out == old(out) && level == old(level) && options == old(options)
      ensures copy == Value()
    {
      log := log.(fields := log.fields + [Field(key, value)]);
      copy := Value();
    }

    /** Starts an event at zl with ctx, runs the hooks and writes the record. */
    method Emit(zl: ZLevel, ctx: Option<Context>, message: string) returns (em: Option<Emission>)
      modifies SpanSet(ctx)
      ensures em == Written(log, zl, ctx, message)
      ensures forall s | s in SpanSet(ctx) :: s.State() == SpanAfter(log, zl, message, s.recording, old(s.State()))
    {
      if zl < log.level {
        return None;
      }
      var e := new Event(zl, ctx, log.fields);
      RunHooks(log.hooks, e, zl, message);
      em := Some(Emission(log.w, Record(zl, e.fields, message)));
    }

    /** Log: one record at BackendLevel(lv), without a context (the message is fmt.Sprint's). */
    method Log(lv: Level, message: string) returns (em: Option<Emission>)
      ensures em == Written(log, BackendLevel(lv), None, message)
      ensures em.Some? ==> em.value.record.fields == log.fields + UserFields(log.hooks)
    {
      HooksFieldsWithoutContext(log.hooks);
      em := Emit(BackendLevel(lv), None, message);
    }

    /** Logf: as Log; the message is fmt.Sprintf's. */
    method Logf(lv: Level, message: string) returns (em: Option<Emission>)
      ensures em == Written(log, BackendLevel(lv), None, message)
      ensures em.Some? ==> em.value.record.fields == log.fields + UserFields(log.hooks)
    {
      HooksFieldsWithoutContext(log.hooks);
      em := Emit(BackendLevel(lv), None, message);
    }

    /** CtxLogf: one record at BackendLevel(lv) through this logger, with ctx on the event. */
    method CtxLogf(lv: Level, ctx: Option<Context>, message: string) returns (em: Option<Emission>)
      modifies SpanSet(ctx)
      ensures em == Written(log, BackendLevel(lv), ctx, message)
      ensures forall s | s in SpanSet(ctx) ::
                s.State() == SpanAfter(log, BackendLevel(lv), message, s.recording, old(s.State()))
    {
      em := Emit(BackendLevel(lv), ctx, message);
    }

    /** The 21 wrappers: each calls Log, Logf or CtxLogf as RouteOf says; only Ctx variants use ctx. */
    method Call(entry: EntryPoint, ctx: Option<Context>, message: string) returns (em: Option<Emission>)
      modifies SpanSet(ctx)
      ensures em == Written(log, EntryLevel(entry), EntryCtx(entry, ctx), message)
      ensures forall s | s in SpanSet(EntryCtx(entry, ctx)) ::
                s.State() == SpanAfter(log, EntryLevel(entry), message, s.recording, old(s.State()))
      ensures !RouteOf(entry).ViaCtxLogf? ==> unchanged(SpanSet(ctx))
    {
      match RouteOf(entry)
      case ViaLog(lv) =>
        em := Log(lv, message);
      case ViaLogf(lv) =>
        em := Logf(lv, message);
      case ViaCtxLogf(lv) =>
        em := CtxLogf(lv, ctx, message);
    }
  }

  /** New: a logger over New's backend with the caller's options followed by the two built-in hooks. */
  method New(options: seq<Opt>) returns (l: DefaultLogger)
    ensures fresh(l)
    ensures l.options == NewOptions(options)
    ensures l.log == ApplyOpts(NewBackend(), NewOptions(options))
    ensures l.out == None && l.level == l.log.level
  {
    l := new DefaultLogger(NewBackend(), NewOptions(options));
  }

  /** From: a logger over an existing backend logger, with the caller's options only. */
  method From(log: ZeroLogger, options: seq<Opt>) returns (l: DefaultLogger)
    ensures fresh(l)
    ensures l.options == options && l.log == ApplyOpts(log, options)
    ensures l.out == None && l.level == l.log.level
  {
    l := new DefaultLogger(log, options);
  }

  // ---------------------------------------------------------------------
  // Console formatting

  /** The argument FormatCaller receives: nil, a string, or a value of another type. */
  datatype CallerArg = NilCaller | StrCaller(s: string) | OtherCaller(tag: int)

  /** FormatCaller: "" for nil, "" or a non-string; otherwise the base name followed by ':'. */
  function FormatCaller(caller: CallerArg): (r: string)
    ensures r == "" <==> !caller.StrCaller? || caller.s == ""
    ensures r != "" ==> r[|r| - 1] == ':' && r[..|r| - 1] == Text.Base(caller.s)
  {
    match caller
    case NilCaller => ""
    case OtherCaller(_) => ""
    case StrCaller(s) => if s == "" then "" else Text.Base(s) + ":"
  }

  /** FormatLevel: the level text in square brackets. */
  function FormatLevel(lv: string): (r: string)
    ensures |r| == |lv| + 2 && r[0] == '[' && r[|r| - 1] == ']' && r[1..|r| - 1] == lv
  {
    "[" + lv + "]"
  }

  /** The console writer NewConsole builds around out: no colour, the fixed time layout. */
  function NewConsole(out: Writer): (w: Writer)
    ensures w.Console? && w.out == out && w.noColor && w.timeFormat == TimestampLayout
  {
    Console(out, true, TimestampLayout)
  }

  /** CallerMarshalFunc: the file's base name, ':', the line number. */
  function CallerMarshalFunc(file: string, line: int): (r: string)
    ensures |r| > |Text.Base(file)|
    ensures r[..|Text.Base(file)|] == Text.Base(file) && r[|Text.Base(file)|] == ':'
    ensures Text.ParseInt(r[|Text.Base(file)| + 1..]) == Some(line)
    ensures var d := r[|Text.Base(file)| + 1..];
            d != [] && (d[0] == '0' ==> d == "0") && (d[0] == '-' ==> |d| >= 2 && d[1] != '0')
  {
    var b := Text.Base(file);
    var r := b + ":" + Text.Itoa(line);
    assert r[|b| + 1..] == Text.Itoa(line);
    Text.ItoaRoundTrip(line);
    r
  }

  /**
   * The console shows a caller marshalled by CallerMarshalFunc with a ':'
   * appended: the line number stays (unless the file name is made of slashes only).
   */
  lemma ConsoleCaller(file: string, line: int)
    requires file == [] || exists i :: 0 <= i < |file| && file[i] != '/'
    ensures FormatCaller(StrCaller(CallerMarshalFunc(file, line))) == CallerMarshalFunc(file, line) + ":"
  {
    var m := CallerMarshalFunc(file, line);
    MarshalHasNoSlash(file, line);
    Text.BaseOfJoin("", m);
  }

  lemma MarshalHasNoSlash(file: string, line: int)
    requires file == [] || exists i :: 0 <= i < |file| && file[i] != '/'
    ensures forall i :: 0 <= i < |CallerMarshalFunc(file, line)| ==> CallerMarshalFunc(file, line)[i] != '/'
  {
    var b := Text.Base(file);
    Text.BaseIsSlashOnlyForSlashes(file);
    assert b != "/";
    var digits := Text.Itoa(line);
    assert CallerMarshalFunc(file, line) == b + ":" + digits;
    assert forall i :: 0 <= i < |b| ==> b[i] != '/';
    assert forall i :: 0 <= i < |digits| ==> digits[i] != '/';
  }

  /** The caller string "/path/to" + "/" + "logger_test.go:76" is shown as "logger_test.go:76" + ":". */
  lemma FormatCallerExample()
    ensures FormatCaller(StrCaller("/path/to" + "/" + "logger_test.go:76")) == "logger_test.go:76" + ":"
  {
    var name := "logger_test.go:76";
    assert forall i :: 0 <= i < |name| ==> name[i] != '/';
    Text.BaseOfJoin("/path/to", name);
  }
}
