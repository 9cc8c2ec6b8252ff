# oceanlog in Dafny

oceanlog is a logging facade for Go services built on zerolog. It has seven
facade levels (Trace, Debug, Info, Notice, Warn, Error, Fatal) and
translates them to zerolog's levels through two fixed tables. `DefaultLogger`
wraps a zerolog logger; it remembers its output, its level and its
construction options, and offers 21 entry points: seven plain, seven
formatted and seven context-bound. `New` registers two hooks on the backend:
- a request-id hook, which copies the context's `X-Request-ID` string into a
  `request_id` field;
- an OpenTelemetry trace hook, which copies the recording span's trace id,
  span id and trace flags into the record and attaches the log line to the
  span as a `log` event. At or above Error level it also sets the span's
  status to Error and records an error on it.

A package-level slot holds the default logger that the package functions
forward to. A console writer shows the caller as `file.go:line:`. Finally,
`LogConf` builds the logrus and hertz loggers from a file name, a level name
and options, and `InitOceanLog` builds a facade writing to a rotating file
and to stdout.

The model has one module per source file:
- `Levels`: levels.go
- `TraceHooks`: hook.go
- `Logger`: logger.go
- `Default`: default.go
- `Config`: log.go

Supporting modules:
- `Zerolog`: zerolog's int8 levels and level names, record fields, and the
  event that hooks write to.
- `Otel`: a span with its identifiers and the three calls the hook makes on
  it, plus a context that may carry a span and keyed values.
- `Sinks`: writers and lumberjack's rotation settings.
- `Text`: ASCII upper/lower case, `strconv.Itoa` and its inverse, and
  `filepath.Base` for '/'-separated paths.
- `Common`: `Option`.

Where the code changes state, the model does too:
- `DefaultLogger`, the span, the zerolog event and the default-logger slot
  are classes whose methods update fields.
- Running a list of hooks is a loop.
- `NewDefaultLogger` applies its options in a loop.

Each such method is specified by pure functions:
- `HooksFields` and `HooksSpan` give what a hook list does to a record and to
  a span.
- `Written` gives what the backend writes.
- `ApplyOpts` and `ApplyAll` give what options do.

Lemmas then relate these functions: hook order, threshold behaviour, table
round trips and last-option-wins.

Where the code and its stated intent differ, the model follows the code:
- The default logger writes to stdout, although the comment on `SetOutput`
  at default.go:12 says stderr.
- `CtxLogf` writes through the receiver's own backend logger, not through a
  logger bound to the context (logger.go:178-199).
- `Fatalf` passes `LevelError`, so it writes at error level and does not exit
  (logger.go:266-269). `Noticef` passes `LevelWarn`.
- The console shows a marshalled caller with one more ':' after it:
  `logger_test.go:76:` rather than the `logger_test.go:76` of the comment at
  logger.go:53.
- The test at logger_test.go:46-51 expects `GetLogger` to fail, but
  default.go:8-10 fills the slot when the package starts, so it succeeds.
  The test at logger_test.go:363-365 expects `logger_test.go:` for a caller
  that the code shows as `logger_test.go:76:`.

Inputs the code gets from outside become parameters:
- what `logrus.ParseLevel` returns;
- the dynamic type of an `interface{}` argument (`LevelArg`, `CallerArg`,
  `Candidate`).

Messages are already-rendered strings.

## Model

| member | source | states |
|---|---|---|
| Levels.ZerologLevelsDomain | levels.go:24-32 | the facade-to-zerolog table has an entry for exactly the seven named levels |
| Levels.HlogLevelsDomain | levels.go:34-41 | the zerolog-to-facade table has an entry for exactly TraceLevel..FatalLevel (not PanicLevel or above) |
| Levels.MatchHlogLevel | levels.go:44-53 | matchHlogLevel never fails: the result lies in TraceLevel..FatalLevel and is a key of the reverse table; an unknown level gives WarnLevel |
| Levels.MatchHlogLevelTable | levels.go:24-32 | the seven entries; Notice and Warn both give WarnLevel |
| Levels.MatchHlogLevelOrder | levels.go:24-32 | the translation preserves severity order, and maps two named levels to the same zerolog level only when they are Notice and Warn |
| Levels.MatchLevel | levels.go:54-66 | a Level argument gives the same result as matchHlogLevel; a non-Level argument gives WarnLevel |
| Levels.MatchZerologLevel | levels.go:68-77 | the result is a named level and never Notice; a level outside the table (Panic, NoLevel, Disabled, any other int8) gives LevelWarn |
| Levels.MatchZerologLevelTable | levels.go:34-41 | the six entries, and PanicLevel falls back to LevelWarn |
| Levels.FacadeRoundTrip | levels.go:24-41 | facade to zerolog and back returns the level, except that Notice returns as Warn |
| Levels.BackendRoundTrip | levels.go:24-41 | zerolog to facade and back returns every level in the reverse table |
| TraceHooks.AllLevelIsTraceToPanic | hook.go:34-35 | AllLevel is strictly increasing and holds exactly the levels TraceLevel..PanicLevel (a list that `Levels` reports; it filters nothing) |
| TraceHooks.OtelSeverityText | hook.go:85-91 | the severity text has the length of zerolog's level name, contains no lower-case letter, and lower-cases back to that name |
| TraceHooks.OtelSeverityTextNamed | hook.go:85-91 | the texts of TraceLevel..PanicLevel are TRACE, DEBUG, INFO, WARN, ERROR, FATAL, PANIC; warn is not rewritten |
| TraceHooks.TraceFields | hook.go:56-67 | without a context or without a recording span no field is added; otherwise exactly trace_id, span_id and trace_flags, in that order, carrying the span's trace id, span id and trace flags |
| TraceHooks.LogEvent | hook.go:69-74 | the span event is named "log" and carries exactly two attributes: the message, then OtelSeverityText(level) (the upper-cased level name, which lower-cases back to zerolog's name) |
| TraceHooks.TraceStep | hook.go:69-80 | a span that is not recording is untouched; a recording span gets exactly one log event; at or above errorSpanLevel its status becomes Error with the message and one error is recorded, with stack trace as configured; below the threshold status and errors are unchanged |
| TraceHooks.TraceHook.Levels | hook.go:51-53 | Levels reports the configured levels unchanged; nothing else reads them, so they do not decide when `Run` acts |
| TraceHooks.NewTraceHook | hook.go:47-49 | the new hook wraps the given configuration unchanged, so it reports that configuration's levels |
| TraceHooks.TraceHook.Run | hook.go:55-83 | the event gains exactly TraceFields(ctx), and the context's span (the only object touched) moves by TraceStep |
| Logger.RequestIDFields | logger.go:81-89 | a request_id field is added iff the context holds a string under X-Request-ID, and it carries that string; at most one field |
| Logger.RunRequestID | logger.go:81-89 | the request-id hook appends exactly RequestIDFields(ctx) to the event |
| Logger.RunHook | logger.go:80-90 | one hook appends its fields and moves the span by its own step |
| Logger.RunHooks | logger.go:80-90 | running the registered hooks in order appends HooksFields and moves the span by HooksSpan |
| Logger.HooksFieldsAppend | logger.go:80-90 | fields added by a concatenated hook list are the first list's fields followed by the second's |
| Logger.HooksSpanAppend | logger.go:80-90 | the span effect of a concatenated hook list is the first list's effect followed by the second's |
| Logger.HooksFieldsWithoutContext | logger.go:82-84 | without a context only caller-supplied hooks add fields |
| Logger.HooksSpanWithoutTraceHook | logger.go:81-89 | hooks other than trace hooks leave the span unchanged |
| Logger.NewBackend | logger.go:74 | New's backend writes to stdout at TraceLevel, with caller skip 4 (zerolog's caller hook, held as a setting), no registered hooks and no bound fields |
| Logger.ApplyOptsHooks | logger.go:313-322 | options register their hooks after the existing ones, in option order, and bind no fields |
| Logger.ApplyOptsKeepsLevel | logger.go:313-322 | without a WithLevel option the backend keeps its threshold |
| Logger.ApplyOptsLastLevelWins | logger.go:313-322 | the last WithLevel option sets the backend threshold to matchHlogLevel of its level |
| Logger.ApplyOptsLastOutputWins | logger.go:313-322 | the last WithOutput option decides the backend writer |
| Logger.OptHooksAppend | logger.go:80-90 | the hooks registered by concatenated option lists are concatenated |
| Logger.DefaultTraceHookSettings | logger.go:75-79 | New's trace hook records stack traces, reports exactly TraceLevel..PanicLevel as its enabled levels and marks spans failed from ErrorLevel |
| Logger.NewOptions | logger.go:80-90 | New passes the caller's options unchanged, followed by the request-id hook function and then the trace hook with New's configuration |
| Logger.NewHookOrder | logger.go:73-92 | New's backend runs the caller's hooks, then the request-id hook, then a trace hook whose reported levels are AllLevel |
| Logger.BuiltInHookFields | logger.go:80-90 | after any hooks, the request-id and trace hooks add request_id (if present) and then the three trace fields |
| Logger.NewRecordFieldOrder | logger.go:73-92 | a record through New's backend carries the caller hooks' fields, then request_id, then trace_id, span_id, trace_flags |
| Logger.NewSpanEffect | logger.go:75-79 | when the caller adds no trace hook, New's hooks act on a span as one trace step with stack capture on and threshold ErrorLevel |
| Logger.NewRecordWithoutContext | logger.go:81-84 | a record logged without a context through New's backend holds only the caller hooks' fields |
| Logger.BackendLevel | logger.go:142-158 | every facade level is written at a level in DebugLevel..FatalLevel |
| Logger.BackendLevelAgreesWithTable | logger.go:142-158 | the dispatch switch agrees with matchHlogLevel except that Trace is written at DebugLevel |
| Logger.RouteOf | logger.go:201-311 | the seven plain entry points call Log, the seven formatted ones Logf and the seven Ctx ones CtxLogf, always with a named level |
| Logger.EntryLevelTable | logger.go:201-311 | for each zerolog level, exactly which of the 21 entry points write at it; Trace goes to debug, Notice to warn, Fatalf to error |
| Logger.WrapperQuirks | logger.go:251-269 | Noticef passes LevelWarn and Fatalf passes LevelError, while CtxNoticef, CtxFatalf, Notice and Fatal pass their own levels |
| Logger.EntryLevelRange | logger.go:201-311 | every entry point writes in DebugLevel..FatalLevel; exactly the Error and Fatal families reach ErrorLevel |
| Logger.Written | logger.go:142-158 | a record is written iff its level reaches the backend threshold, to the backend's writer, at that level, with that message, carrying the bound fields followed by the fields the registered hooks add for the context |
| Logger.SetLevelIdempotent | logger.go:113-118 | setting the same level twice leaves the state of setting it once |
| Logger.SetLevelThreshold | logger.go:113-118 | after SetLevel(lv) a message is written iff its level reaches matchHlogLevel(lv) |
| Logger.DefaultLogger.constructor | logger.go:313-322 | newLogger applies the options to the backend, keeps no output, takes the resulting level and keeps the options |
| Logger.DefaultLogger.SetLevel | logger.go:113-118 | the stored level and the backend threshold both become matchHlogLevel(lv); nothing else changes |
| Logger.DefaultLogger.SetOutput | logger.go:120-124 | the output and the backend writer become w; level and options are unchanged |
| Logger.DefaultLogger.WithField | logger.go:131-135 | the receiver's backend gains one bound field at the end, and the returned copy equals the updated receiver |
| Logger.DefaultLogger.Emit | logger.go:143-158 | the emission is Written(log, level, ctx, message), and the context's span moves by the hooks only if the record is written |
| Logger.DefaultLogger.Log | logger.go:142-158 | one record at BackendLevel(lv) with no context; it carries the bound fields and the caller hooks' fields only |
| Logger.DefaultLogger.Logf | logger.go:160-176 | as Log, for the formatted message |
| Logger.DefaultLogger.CtxLogf | logger.go:178-199 | one record at BackendLevel(lv) through the receiver's own backend, with the context on the event; the span moves by the hooks |
| Logger.DefaultLogger.Call | logger.go:201-311 | each entry point writes at EntryLevel with a context only for the Ctx variants; the others leave every span unchanged |
| Logger.New | logger.go:72-92 | a fresh logger over New's backend with the caller's options followed by the two built-in hooks; no output set |
| Logger.From | logger.go:94-97 | a fresh logger over the given backend with only the caller's options |
| Logger.FormatCaller | logger.go:42-55 | nil, non-string or empty callers show as ""; any other caller shows as its base name followed by ':' |
| Logger.FormatLevel | logger.go:38-40 | the level text is shown in square brackets |
| Logger.NewConsole | logger.go:33-57 | the console writer wraps the given writer with no colour and the 2006-01-02 15:04:05 layout |
| Logger.CallerMarshalFunc | logger.go:64-70 | the caller is the file's base name, ':', and the decimal form of the line: it parses back to the line, has no leading zeros, and starts with '-' for a negative line |
| Logger.ConsoleCaller | logger.go:42-70 | a marshalled caller passes through FormatCaller unchanged except for one more ':' at the end |
| Logger.FormatCallerExample | logger.go:53-54 | "/path/to/logger_test.go:76" is shown as "logger_test.go:76:" |
| Default.Registry.constructor | default.go:8-10 | the slot starts with a fresh logger built by New with the timestamp option: no output, level TraceLevel |
| Default.Registry.GetDefaultLogger | default.go:24-27 | returns the reference in the slot and changes nothing |
| Default.Registry.SetLogger | default.go:32-46 | only a *DefaultLogger, even a nil one, replaces the slot; nil and values of other types leave it as it was |
| Default.Registry.GetLogger | logger.go:99-111 | an error is returned iff the slot is nil; then the zero DefaultLogger and the fixed message; otherwise a copy of the slot's logger |
| Default.Registry.SetLevel | default.go:17-22 | SetLevel on the slot's logger, or a nil-pointer panic iff the slot is nil |
| Default.Registry.SetOutput | default.go:12-15 | SetOutput on the slot's logger, or a nil-pointer panic iff the slot is nil |
| Default.Registry.Forward | default.go:48-151 | each package function writes what the slot logger's same-named method writes, with the same span effect; the plain and formatted functions leave every span unchanged; a nil slot panics and touches no span |
| Default.DefaultLoggerSetLogger | logger.go:326-344 | the method form writes the same global slot under the same rules, whatever the receiver |
| Default.TypedNilEmptiesSlot | default.go:32-46 | a typed-nil *DefaultLogger empties the slot, after which GetLogger reports its error |
| Default.IgnoredCandidatesKeepSlot | default.go:32-46 | SetLogger(nil) and SetLogger of a non-logger leave GetDefaultLogger's result unchanged |
| Config.DefaultLumberjackLogger | log.go:132-139 | rotation defaults: no file name, 20 MB, 5 backups, 10 days, compressed |
| Config.RotatingFileIsDefaultNamed | log.go:54-67 | getLumberjackLogger uses the same rotation settings as defaultLumberjackLogger, with the given file name |
| Config.Option.Apply | log.go:220-225 | WithLumberjackLogger replaces the rotation settings and nothing else |
| Config.ChosenFileName | log.go:181-184 | an empty file name becomes ./log/std.log; any other name is kept |
| Config.InitialConf | log.go:185-192 | before options: the chosen file name, the given level, both sinks on, no formatter, and the rotation defaults on the chosen file |
| Config.ApplyAll | log.go:193-196 | no options leave the configuration as it is; otherwise the last option's rotation settings are in force |
| Config.ApplyAllLastWins | log.go:193-196 | applying options changes only the rotation settings, and the last option decides them |
| Config.NewDefaultLogger | log.go:180-198 | the result is the default configuration with the options applied in order: chosen file name, both sinks on, given level, and rotation settings from the last option (defaults on the chosen file if there are none) |
| Config.SelectWriters | log.go:104-110 | the rotating file is a sink iff Fileout and stdout iff Stdout, with the file first and nothing else |
| Config.FormatterFor | log.go:114-118 | the formatter is JSON iff the configured name is "json", text otherwise |
| Config.EffectiveLevel | log.go:124-128 | the parsed level when the name parses, InfoLevel otherwise |
| Config.GetLogrusLog | log.go:102-130 | the logrus logger writes to exactly the selected sinks, with the formatter and level chosen from the configuration |
| Config.GetHzLog | log.go:69-100 | the hertz logger's logrus logger gets the same sinks, formatter and level choices |
| Config.OceanWriter | log.go:29-34 | file then stdout, wrapped iff the format is not "json" in exactly the console writer NewConsole builds |
| Config.InitOceanLog | log.go:27-52 | a fresh logger whose output and backend writer are OceanWriter and whose level and backend threshold are matchHlogLevel(level); its backend is exactly New's backend with the output, level and timestamp options and the two built-in hooks applied (SetOutput and SetLevel repeat what the options set) |

## Left out

- options.go is not part of this model. `Opt` is modelled as five options (output, level, formatted timestamp, hook, hook function), each setting the one backend setting its name says. `newOptions` is their application in order.
- zerolog's JSON encoding, timestamp and caller fields, the global level and `Event.Ctx` plumbing are not modelled. A record is its level, its bound fields followed by the hook fields, and its message.
- `Fatal`-level exit (`os.Exit`) and panics at Panic level are not modelled; a fatal record is only written.
- fmt.Sprint/fmt.Sprintf rendering is not modelled; messages are already-rendered strings.
- `WithContext` and `Unwrap` (logger.go:126-140) are not modelled as separate operations: attaching a logger to a context has no effect in the modelled writes, and `CtxLogf` reads the backend field directly.
- `MultiLevelWriter` (logger.go:59-62) forwards to zerolog; per-level fan-out is outside the model, where a combined writer is `MultiWriter`.
- zerolog implements the caller field (`CallerWithSkipFrameCount`) and the timestamp behind `WithFormattedTimestamp` as its own hooks, which run before the registered ones. They are represented by the backend's `callerSkip` and `timestampFormat` settings and are left out of its `hooks` list, so the fields they add do not appear in modelled records.
- Caller-supplied hooks are modelled as appending fixed fields (`UserHook`), not as arbitrary code.
- The OpenTelemetry span keeps only events, status and recorded errors. `SetStatus` overwrites the status as given, without OpenTelemetry's rule that Ok is final. Trace and span ids are opaque strings.
- `loggerMutex` and concurrency are not modelled; the slot is a single field.
- `InitOutToFile`, `GetFileIO` and the panics in `getLumberjackLogger` and `GetLumberjackLogger` create directories and files. This file-system I/O is left out: the rotating file is a writer value.
- Pointer sharing of `*LogConf` and `*lumberjack.Logger` is not modelled; both are values. An option therefore cannot alias the configuration's rotation settings.
- `logrus.ParseLevel` is taken as an input (the parsed level or none), so its accepted spellings are not modelled.
- `enableLevels` (hook.go:39, 51-53) is only reported by `TraceHook.Levels`. zerolog's hook interface has `Run` alone, so nothing consults the list, and the model runs the trace hook at every level, as the source does.
- levels.go, logger.go and default.go are declared in package `main`, while hook.go and log.go are declared in package `oceanlog`, and each side names the other's identifiers unqualified. The model treats the five files as one program and resolves those names across the package boundary; the package split itself is not modelled.
- Text.ToUpper, Text.ToLower: ASCII only, since every zerolog level name is ASCII; full Unicode case mapping is not modelled.
- Text.Base: models `filepath.Base` with '/' as the only separator (Unix), not the Windows volume and separator rules.
