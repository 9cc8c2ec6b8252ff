/**
 * The part of zerolog the facade is written against: its int8 levels and
 * their names, string fields, and an event that hooks add fields to.
 */
module Zerolog {
  import Common
  import Otel
  import Text

  /** zerolog.Level is an int8. */
  newtype ZLevel = x: int | -128 <= x < 128

  const TraceLevel: ZLevel := -1
  const DebugLevel: ZLevel := 0
  const InfoLevel: ZLevel := 1
  const WarnLevel: ZLevel := 2
  const ErrorLevel: ZLevel := 3
  const FatalLevel: ZLevel := 4
  const PanicLevel: ZLevel := 5
  const NoLevel: ZLevel := 6
  const Disabled: ZLevel := 7

  /** zerolog's Level.String: the level's lower-case name, or its number when it has none. */
  function LevelName(z: ZLevel): string
  {
    if z == TraceLevel then "trace"
    else if z == DebugLevel then "debug"
    else if z == InfoLevel then "info"
    else if z == WarnLevel then "warn"
    else if z == ErrorLevel then "error"
    else if z == FatalLevel then "fatal"
    else if z == PanicLevel then "panic"
    else if z == Disabled then "disabled"
    else if z == NoLevel then ""
    else Text.Itoa(z as int)
  }

  /** A field of a log record. Values are rendered strings. */
  datatype Field = Field(key: string, value: string)

  /** A written log record: its level, its fields in order and its message. */
  datatype Record = Record(level: ZLevel, fields: seq<Field>, message: string)

  /** A zerolog.Event while hooks run: the context it was given (GetCtx) and its fields so far. */
  class Event {
    const level: ZLevel
    const ctx: Common.Option<Otel.Context>
    var fields: seq<Field>

    constructor (level: ZLevel, ctx: Common.Option<Otel.Context>, fields: seq<Field>)
      ensures this.level == level && this.ctx == ctx && this.fields == fields
    {
      this.level := level;
      this.ctx := ctx;
      this.fields := fields;
    }

    /** Event.Str: append a string field. */
    method Str(key: string, value: string)
      modifies this
      ensures fields == old(fields) + [Field(key, value)]
    {
      fields := fields + [Field(key, value)];
    }
  }
}
