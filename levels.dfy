/**
 * Translation between the facade's levels and zerolog's levels: two fixed
 * tables, each lookup falling back to Warn on a miss.
 */
module Levels {
  import opened Zerolog

  /**
   * The facade's severity. The seven named levels, plus LevelUnknown for any
   * other value a caller can form from the underlying integer type.
   */
  datatype Level =
    | LevelTrace
    | LevelDebug
    | LevelInfo
    | LevelNotice
    | LevelWarn
    | LevelError
    | LevelFatal
    | LevelUnknown(code: int)

  /** Severity order of the named levels, least severe first. */
  function Rank(l: Level): nat
    requires !l.LevelUnknown?
  {
    match l
    case LevelTrace => 0
    case LevelDebug => 1
    case LevelInfo => 2
    case LevelNotice => 3
    case LevelWarn => 4
    case LevelError => 5
    case LevelFatal => 6
  }

  /** Facade level to zerolog level. */
  const ZerologLevels: map<Level, ZLevel> := map[
    LevelTrace := TraceLevel,
    LevelDebug := DebugLevel,
    LevelInfo := InfoLevel,
    LevelWarn := WarnLevel,
    LevelNotice := WarnLevel,
    LevelError := ErrorLevel,
    LevelFatal := FatalLevel
  ]

  /** zerolog level to facade level; PanicLevel and the levels beyond it have no entry. */
  const HlogLevels: map<ZLevel, Level> := map[
    TraceLevel := LevelTrace,
    DebugLevel := LevelDebug,
    InfoLevel := LevelInfo,
    WarnLevel := LevelWarn,
    ErrorLevel := LevelError,
    FatalLevel := LevelFatal
  ]

  /** The facade-to-zerolog table has an entry for exactly the seven named levels. */
  lemma ZerologLevelsDomain(l: Level)
    ensures l in ZerologLevels <==> !l.LevelUnknown?
  {
  }

  /** The zerolog-to-facade table has an entry for exactly TraceLevel..FatalLevel. */
  lemma HlogLevelsDomain(z: ZLevel)
    ensures z in HlogLevels <==> TraceLevel <= z <= FatalLevel
  {
  }

  /** matchHlogLevel: table lookup, WarnLevel on a miss. Never fails. */
  function MatchHlogLevel(level: Level): (z: ZLevel)
    ensures TraceLevel <= z <= FatalLevel
    ensures z in HlogLevels
    ensures level.LevelUnknown? ==> z == WarnLevel
  {
    if level in ZerologLevels then ZerologLevels[level] else WarnLevel
  }

  /** The table entries; Notice and Warn both give WarnLevel. */
  lemma MatchHlogLevelTable()
    ensures MatchHlogLevel(LevelTrace) == TraceLevel
    ensures MatchHlogLevel(LevelDebug) == DebugLevel
    ensures MatchHlogLevel(LevelInfo) == InfoLevel
    ensures MatchHlogLevel(LevelNotice) == WarnLevel
    ensures MatchHlogLevel(LevelWarn) == WarnLevel
    ensures MatchHlogLevel(LevelError) == ErrorLevel
    ensures MatchHlogLevel(LevelFatal) == FatalLevel
  {
  }

  /**
   * The translation keeps the severity order, and identifies two named levels
   * only when they are Notice and Warn.
   */
  lemma MatchHlogLevelOrder(a: Level, b: Level)
    requires !a.LevelUnknown? && !b.LevelUnknown?
    ensures Rank(a) <= Rank(b) ==> MatchHlogLevel(a) <= MatchHlogLevel(b)
    ensures MatchHlogLevel(a) == MatchHlogLevel(b) <==>
              a == b || ({a, b} == {LevelNotice, LevelWarn})
  {
  }

  /** The dynamic argument of MatchLevel: a Level, or a value of some other type. */
  datatype LevelArg = LevelValue(level: Level) | NotALevel

  /** MatchLevel: the same lookup behind a type assertion; a non-Level gives WarnLevel. */
  function MatchLevel(lv: LevelArg): (z: ZLevel)
    ensures lv.LevelValue? ==> z == MatchHlogLevel(lv.level)
    ensures lv.NotALevel? ==> z == WarnLevel
  {
    match lv
    case NotALevel => WarnLevel
    case LevelValue(lve) => if lve in ZerologLevels then ZerologLevels[lve] else WarnLevel
  }

  /** matchZerologLevel: table lookup, LevelWarn on a miss. Never fails. */
  function MatchZerologLevel(level: ZLevel): (l: Level)
    ensures !l.LevelUnknown? && l != LevelNotice
    ensures (TraceLevel <= level <= FatalLevel) == (level in HlogLevels)
    ensures level !in HlogLevels ==> l == LevelWarn
  {
    if level in HlogLevels then HlogLevels[level] else LevelWarn
  }

  lemma MatchZerologLevelTable()
    ensures MatchZerologLevel(TraceLevel) == LevelTrace
    ensures MatchZerologLevel(DebugLevel) == LevelDebug
    ensures MatchZerologLevel(InfoLevel) == LevelInfo
    ensures MatchZerologLevel(WarnLevel) == LevelWarn
    ensures MatchZerologLevel(ErrorLevel) == LevelError
    ensures MatchZerologLevel(FatalLevel) == LevelFatal
    ensures MatchZerologLevel(PanicLevel) == LevelWarn
  {
  }

  /** Facade to zerolog and back gives the level again, except that Notice comes back as Warn. */
  lemma FacadeRoundTrip(l: Level)
    requires !l.LevelUnknown?
    ensures MatchZerologLevel(MatchHlogLevel(l)) == if l == LevelNotice then LevelWarn else l
  {
  }

  /** Zerolog to facade and back gives the level again for every level in the reverse table. */
  lemma BackendRoundTrip(z: ZLevel)
    requires z in HlogLevels
    ensures MatchHlogLevel(MatchZerologLevel(z)) == z
  {
  }
}
