/**
 * Stand-ins for the parts of Go's log/slog that the handler talks to.
 * The real handler ("sink") is an abstract value recording how it was
 * scoped; what it does with a record is observed as a trace of emissions.
 */
module Slog {
  import opened Wrappers

  /** slog.Level is an integer; larger is more severe. */
  type Level = int

  const LevelDebug: Level := -4
  const LevelInfo: Level := 0
  const LevelWarn: Level := 4
  const LevelError: Level := 8

  /** slog.Attr, as a key and a rendered value. */
  datatype Attr = Attr(key: string, value: string)

  /** slog.Record: opaque payload carried through unchanged. */
  datatype Record = Record(level: Level, message: string, attrs: seq<Attr>)

  /**
   * A real slog.Handler as built by the adapter: a base handler, or one
   * derived from another by WithGroup or WithAttrs.
   */
  datatype Sink =
    | Base(id: nat)
    | Group(inner: Sink, name: string)
    | Attrs(inner: Sink, attrs: seq<Attr>)

  /** One call of Handle on a real handler. */
  datatype Emission = Emission(sink: Sink, record: Record)

  /** An error returned by a real handler's Handle. */
  type Error = string

  /**
   * The world downstream of the adapter: every record handed to a real
   * handler, in order. Whether a handler accepts a level, and whether it
   * fails on a record, are fixed by the two oracles.
   */
  class Downstream {
    var trace: seq<Emission>
    const enabled: (Sink, Level) -> bool
    const outcome: (Sink, Record) -> Option<Error>

    constructor (enabled: (Sink, Level) -> bool, outcome: (Sink, Record) -> Option<Error>)
      ensures trace == [] && this.enabled == enabled && this.outcome == outcome
    {
      trace := [];
      this.enabled := enabled;
      this.outcome := outcome;
    }

    /** slog.Handler.Handle on the real handler `s`. */
    method Handle(s: Sink, r: Record) returns (err: Option<Error>)
      modifies this
      ensures trace == old(trace) + [Emission(s, r)]
      ensures err == outcome(s, r)
    {
      trace := trace + [Emission(s, r)];
      err := outcome(s, r);
    }
  }
}
