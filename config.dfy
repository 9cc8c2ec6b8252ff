/**
 * Configuration construction: LogConf with its defaults and options, the
 * choice of output sinks and formatter for the logrus-based loggers, and the
 * writer InitOceanLog hands to the zerolog facade.
 */
module Config {
  import Common
  import opened Sinks
  import opened Levels
  import opened Logger

  /** File name used when none is given. */
  const DefaultLogFileName := "./log/std.log"

  /** The format name that selects JSON output. */
  const LogJson := "json"

  /** Rotation defaults: 20 MB per file, 5 backups, 10 days, gzip compression. */
  const DefaultMaxSize := 20
  const DefaultMaxBackups := 5
  const DefaultMaxAge := 10

  /** defaultLumberjackLogger: the rotation defaults with no file name yet. */
  function DefaultLumberjackLogger(): (lj: Lumberjack)
    ensures lj.filename == ""
    ensures lj.maxSize == DefaultMaxSize && lj.maxBackups == DefaultMaxBackups
    ensures lj.maxAge == DefaultMaxAge && lj.compress
  {
    Lumberjack("", DefaultMaxSize, DefaultMaxBackups, DefaultMaxAge, true)
  }

  /** The settings getLumberjackLogger gives the rotating file of InitOceanLog. */
  function RotatingFile(fileName: string): Lumberjack
  {
    Lumberjack(fileName, DefaultMaxSize, DefaultMaxBackups, DefaultMaxAge, true)
  }

  /** getLumberjackLogger and defaultLumberjackLogger agree on every setting but the file name. */
  lemma RotatingFileIsDefaultNamed(fileName: string)
    ensures RotatingFile(fileName) == DefaultLumberjackLogger().(filename := fileName)
    ensures RotatingFile(fileName).filename == fileName
  {
  }

  /** LogConf: file name, formatter name, the two sink flags, level name and rotation settings. */
  datatype LogConf = LogConf(
    logFileName: string,
    formatter: string,
    stdout: bool,
    fileout: bool,
    level: string,
    lumberjack: Lumberjack)

  /** A configuration option; WithLumberjackLogger is the one the package defines. */
  datatype Option = WithLumberjackLogger(logger: Lumberjack) {
    /** apply: the change the option makes to a configuration. */
    function Apply(cfg: LogConf): (r: LogConf)
      ensures r.lumberjack == logger
      ensures r.(lumberjack := cfg.lumberjack) == cfg
    {
      cfg.(lumberjack := logger)
    }
  }

  /** The file name NewDefaultLogger settles on. */
  function ChosenFileName(logFileName: string): (name: string)
    ensures name != ""
    ensures logFileName == "" ==> name == DefaultLogFileName
    ensures logFileName != "" ==> name == logFileName
  {
    if logFileName == "" then DefaultLogFileName else logFileName
  }

  /** The configuration NewDefaultLogger builds before applying options. */
  function InitialConf(logFileName: string, level: string): (c: LogConf)
    ensures c.logFileName == ChosenFileName(logFileName) && c.level == level
    ensures c.stdout && c.fileout && c.formatter == ""
    ensures c.lumberjack == RotatingFile(c.logFileName)
  {
    var name := ChosenFileName(logFileName);
    LogConf(name, "", true, true, level, DefaultLumberjackLogger().(filename := name))
  }

  /** The options applied once each, in the order given. */
  function ApplyAll(cfg: LogConf, opts: seq<Option>): (r: LogConf)
    ensures opts == [] ==> r == cfg
    ensures opts != [] ==> r.lumberjack == opts[|opts| - 1].logger
  {
    if opts == [] then cfg else opts[|opts| - 1].Apply(ApplyAll(cfg, opts[..|opts| - 1]))
  }

  /** Options touch only the rotation settings, and the last option decides them. */
  lemma {:induction false} ApplyAllLastWins(cfg: LogConf, opts: seq<Option>)
    ensures ApplyAll(cfg, opts).(lumberjack := cfg.lumberjack) == cfg
    ensures ApplyAll(cfg, opts).lumberjack == if opts == [] then cfg.lumberjack else opts[|opts| - 1].logger
  {
    if opts != [] {
      ApplyAllLastWins(cfg, opts[..|opts| - 1]);
    }
  }

  /**
   * NewDefaultLogger: the default file name when none is given, both sinks on,
   * the given level, the rotation defaults on the chosen file; then each option
   * in turn.
   */
  method NewDefaultLogger(logFileName: string, level: string, opts: seq<Option>) returns (cfg: LogConf)
    ensures cfg == ApplyAll(InitialConf(logFileName, level), opts)
    ensures cfg.logFileName == ChosenFileName(logFileName)
    ensures cfg.stdout && cfg.fileout && cfg.level == level && cfg.formatter == ""
    ensures opts == [] ==> cfg.lumberjack == RotatingFile(ChosenFileName(logFileName))
    ensures opts != [] ==> cfg.lumberjack == opts[|opts| - 1].logger
  {
    var name := logFileName;
    if name == "" {
      name := DefaultLogFileName;
    }
    var lj := DefaultLumberjackLogger();
    cfg := LogConf(name, "", true, true, level, lj);
    cfg := cfg.(lumberjack := cfg.lumberjack.(filename := name));
    ghost var initial := cfg;
    var i := 0;
    while i < |opts|
      invariant 0 <= i <= |opts|
      invariant cfg == ApplyAll(initial, opts[..i])
    {
      cfg := opts[i].Apply(cfg);
      assert opts[..i + 1][..i] == opts[..i];
      i := i + 1;
    }
    assert opts[..|opts|] == opts;
    ApplyAllLastWins(initial, opts);
  }

  /** The sink list: the rotating file iff Fileout, stdout iff Stdout, the file first. */
  predicate SinksFor(c: LogConf, ws: seq<Writer>)
  {
    && (FileWriter(c.lumberjack) in ws <==> c.fileout)
    && (Stdout in ws <==> c.stdout)
    && |ws| == (if c.fileout then 1 else 0) + (if c.stdout then 1 else 0)
    && (c.fileout ==> ws[0] == FileWriter(c.lumberjack))
  }

  /** The conditional appends of GetHzLog and GetLogrusLog. */
  method SelectWriters(c: LogConf) returns (ws: seq<Writer>)
    ensures SinksFor(c, ws)
  {
    ws := [];
    if c.fileout {
      ws := ws + [FileWriter(c.lumberjack)];
    }
    if c.stdout {
      ws := ws + [Stdout];
    }
  }

  datatype Formatter = JSONFormatter | TextFormatter

  /** The formatter is JSON exactly when the configured name is "json". */
  function FormatterFor(name: string): (f: Formatter)
    ensures f == JSONFormatter <==> name == LogJson
  {
    if name == LogJson then JSONFormatter else TextFormatter
  }

  datatype LogrusLevel = LogrusPanic | LogrusFatal | LogrusError | LogrusWarn | LogrusInfo | LogrusDebug | LogrusTrace

  /** The level set on the logrus logger: the parsed one, or Info when the name does not parse. */
  function EffectiveLevel(parsed: Common.Option<LogrusLevel>): (l: LogrusLevel)
    ensures parsed.Some? ==> l == parsed.value
    ensures parsed.None? ==> l == LogrusInfo
  {
    if parsed.Some? then parsed.value else LogrusInfo
  }

  /** A configured logrus logger: its combined writer, formatter and level. */
  datatype LogrusSetup = LogrusSetup(out: Writer, formatter: Formatter, level: LogrusLevel)

  /** The hertz logger wrapping a logrus logger. */
  datatype HzLogger = HzLogger(logger: LogrusSetup)

  /** The setup both builders produce from a configuration and the result of logrus.ParseLevel(c.Level). */
  predicate ConfiguredFrom(c: LogConf, parsed: Common.Option<LogrusLevel>, s: LogrusSetup)
  {
    && s.out.MultiWriter? && SinksFor(c, s.out.writers)
    && s.formatter == FormatterFor(c.formatter)
    && s.level == EffectiveLevel(parsed)
  }

  /** GetLogrusLog: sinks, formatter and level chosen from the configuration. */
  method GetLogrusLog(c: LogConf, parsed: Common.Option<LogrusLevel>) returns (s: LogrusSetup)
    ensures ConfiguredFrom(c, parsed, s)
  {
    var ws := SelectWriters(c);
    var formatter := if c.formatter == LogJson then JSONFormatter else TextFormatter;
    var level := if parsed.Some? then parsed.value else LogrusInfo;
    s := LogrusSetup(MultiWriter(ws), formatter, level);
  }

  /** GetHzLog: the same choices, applied to the logrus logger inside a hertz logger. */
  method GetHzLog(c: LogConf, parsed: Common.Option<LogrusLevel>) returns (h: HzLogger)
    ensures ConfiguredFrom(c, parsed, h.logger)
  {
    var ws := SelectWriters(c);
    var formatter := if c.formatter == LogJson then JSONFormatter else TextFormatter;
    var level := if parsed.Some? then parsed.value else LogrusInfo;
    h := HzLogger(LogrusSetup(MultiWriter(ws), formatter, level));
  }

  /** The writer of InitOceanLog: file and stdout, wrapped in a console writer unless the format is "json". */
  function OceanWriter(fileName: string, logFormat: string): (w: Writer)
    ensures w.Console? <==> logFormat != LogJson
    ensures w.Console? ==> w == NewConsole(w.out)
    ensures var inner := if w.Console? then w.out else w;
            inner == MultiWriter([FileWriter(RotatingFile(fileName)), Stdout])
  {
    var iw := MultiWriter([FileWriter(RotatingFile(fileName)), Stdout]);
    if logFormat != LogJson then NewConsole(iw) else iw
  }

  /**
   * InitOceanLog: New with output, level and timestamp options, then SetOutput
   * and SetLevel with the same writer and level.
   */
  method InitOceanLog(fileName: string, logFormat: string, level: Level) returns (l: DefaultLogger)
    ensures fresh(l)
    ensures l.out == Common.Some(OceanWriter(fileName, logFormat)) && l.log.w == OceanWriter(fileName, logFormat)
    ensures l.level == l.log.level == MatchHlogLevel(level)
    ensures l.options == NewOptions([WithOutput(OceanWriter(fileName, logFormat)), WithLevel(level), WithFormattedTimestamp(TimestampLayout)])
    ensures l.log == ApplyOpts(NewBackend(), l.options)
  {
    var iw := MultiWriter([FileWriter(RotatingFile(fileName)), Stdout]);
    if logFormat != LogJson {
      iw := NewConsole(iw);
    }
    l := New([WithOutput(iw), WithLevel(level), WithFormattedTimestamp(TimestampLayout)]);
    ApplyOptsLastOutputWins(NewBackend(), l.options, 0);
    ApplyOptsLastLevelWins(NewBackend(), l.options, 1);
    l.SetOutput(iw);
    l.SetLevel(level);
  }
}
