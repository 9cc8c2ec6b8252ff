/**
 * The package-level default logger: one slot holding a *DefaultLogger,
 * initialised at start-up, replaced only by a value of that type, and used by
 * the package-level convenience functions.
 */
module Default {
  import opened Common
  import opened Otel
  import opened Zerolog
  import opened Sinks
  import opened Levels
  import opened Logger

  /** The message GetLogger reports when the slot is empty. */
  const GetLoggerError := "GetDefaultLogger is not a zerolog logger"

  /**
   * The dynamic value handed to SetLogger: nil, a *DefaultLogger (which may
   * itself be a nil pointer), or a value of some other type.
   */
  datatype Candidate = NilValue | LoggerPointer(p: DefaultLogger?) | NotALogger(tag: int)

  /** The outcome of a call through the slot: what was written, or the panic of a nil receiver. */
  datatype Forwarded = Forwarded(em: Option<Emission>) | NilPointerPanic

  /** The zero DefaultLogger{} value: a zero zerolog.Logger (nil writer, level 0), no output, no options. */
  const ZeroValue := LoggerValue(ZeroLogger(NilWriter, DebugLevel, [], [], None, None), None, DebugLevel, [])

  /** The slot and the operations on it. */
  class Registry {
    var logger: DefaultLogger?

    /** The slot starts with a logger built by New with a formatted-timestamp option. */
    constructor ()
      ensures logger != null && fresh(logger)
      ensures logger.options == NewOptions([WithFormattedTimestamp(TimestampLayout)])
      ensures logger.log == ApplyOpts(NewBackend(), logger.options)
      ensures logger.out == None && logger.level == TraceLevel
    {
      var l := New([WithFormattedTimestamp(TimestampLayout)]);
      ApplyOptsKeepsLevel(NewBackend(), NewOptions([WithFormattedTimestamp(TimestampLayout)]));
      logger := l;
    }

    /** GetDefaultLogger: the reference in the slot; changes nothing. */
    method GetDefaultLogger() returns (l: DefaultLogger?)
      ensures l == logger
    {
      l := logger;
    }

    /** SetLogger: only a *DefaultLogger replaces the slot; nil and other types are ignored. */
    method SetLogger(v: Candidate)
      modifies this
      ensures v.LoggerPointer? ==> logger == v.p
      ensures !v.LoggerPointer? ==> logger == old(logger)
    {
      if v.NilValue? {
        return;
      }
      if v.LoggerPointer? {
        logger := v.p;
        return;
      }
    }

    /**
     * GetLogger: a copy of the slot's logger and no error, or the zero value
     * and an error when the slot holds a nil pointer.
     */
    method GetLogger() returns (v: LoggerValue, err: Option<string>)
      ensures err.Some? <==> logger == null
      ensures logger != null ==> v == logger.Value()
      ensures logger == null ==> v == ZeroValue && err == Some(GetLoggerError)
    {
      var d := GetDefaultLogger();
      if d != null {
        return d.Value(), None;
      }
      return ZeroValue, Some(GetLoggerError);
    }

    /** Package SetLevel: SetLevel on the slot's logger; a nil slot panics. */
    method SetLevel(lv: Level) returns (panicked: bool)
      modifies logger
      ensures panicked <==> logger == null
      ensures logger != null ==> logger.Value() == SetLevelValue(old(logger.Value()), lv)
    {
      if logger == null {
        return true;
      }
      logger.SetLevel(lv);
      return false;
    }

    /** Package SetOutput: SetOutput on the slot's logger; a nil slot panics. */
    method SetOutput(w: Writer) returns (panicked: bool)
      modifies logger
      ensures panicked <==> logger == null
      ensures logger != null ==> logger.out == Some(w) && logger.log == old(logger.log).(w := w)
      ensures logger != null ==> logger.level == old(logger.level) && logger.options == old(logger.options)
    {
      if logger == null {
        return true;
      }
      logger.SetOutput(w);
      return false;
    }

    /**
     * The package-level convenience functions: each calls the same-named method
     * of the slot's logger with the same arguments.
     */
    method Forward(entry: EntryPoint, ctx: Option<Context>, message: string) returns (r: Forwarded)
      modifies SpanSet(ctx)
      ensures logger == null ==> r == NilPointerPanic && unchanged(SpanSet(ctx))
      ensures !RouteOf(entry).ViaCtxLogf? ==> unchanged(SpanSet(ctx))
      ensures logger != null ==> r == Forwarded(Written(logger.log, EntryLevel(entry), EntryCtx(entry, ctx), message))
      ensures logger != null ==> forall s | s in SpanSet(EntryCtx(entry, ctx)) ::
                s.State() == SpanAfter(logger.log, EntryLevel(entry), message, s.recording, old(s.State()))
    {
      if logger == null {
        return NilPointerPanic;
      }
      var em := logger.Call(entry, ctx, message);
      return Forwarded(em);
    }
  }

  /** DefaultLogger.SetLogger: writes the same global slot; the receiver plays no part. */
  method DefaultLoggerSetLogger(receiver: DefaultLogger?, reg: Registry, v: Candidate)
    modifies reg
    ensures v.LoggerPointer? ==> reg.logger == v.p
    ensures !v.LoggerPointer? ==> reg.logger == old(reg.logger)
  {
    reg.SetLogger(v);
  }

  /** A typed-nil *DefaultLogger passes the type check, empties the slot, and GetLogger then fails. */
  method TypedNilEmptiesSlot(reg: Registry) returns (err: Option<string>)
    modifies reg
    ensures reg.logger == null && err == Some(GetLoggerError)
  {
    reg.SetLogger(LoggerPointer(null));
    var _, e := reg.GetLogger();
    err := e;
  }

  /** SetLogger(nil) and SetLogger of a non-logger keep the slot's reference, as GetDefaultLogger shows. */
  method IgnoredCandidatesKeepSlot(reg: Registry, tag: int) returns (before: DefaultLogger?, after: DefaultLogger?)
    modifies reg
    ensures before == after
  {
    before := reg.GetDefaultLogger();
    reg.SetLogger(NilValue);
    reg.SetLogger(NotALogger(tag));
    after := reg.GetDefaultLogger();
  }
}
