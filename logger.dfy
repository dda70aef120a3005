/** The otellog Logger: a sink, a clock, a formatter and an ordered hook
    list, the logging call that runs them, and the package-level functions
    that configure and use the default instance. */
module OtelLog {
  import opened Events

  /** A byte-stream writer; it records every chunk written to it, in order. */
  class Sink {
    var writes: seq<seq<Byte>>

    constructor ()
      ensures writes == []
    {
      writes := [];
    }

    method Write(p: seq<Byte>)
      modifies this
      ensures writes == old(writes) + [p]
    {
      writes := writes + [p];
    }
  }

  /** A clock reads a timestamp; it is given the wall-clock instant at which
      the logging call happens and may report any time it likes. */
  type Clock = Timestamp -> Timestamp

  /** The default clock: the wall clock itself. */
  function WallClock(now: Timestamp): Timestamp
  {
    now
  }

  class Logger {
    /** The process's standard output, the default sink. */
    const stdout: Sink
    /** The JSON serialiser the default formatter uses. */
    const marshal: Marshal

    var out: Sink
    var clock: Clock
    var formatter: Formatter
    var hooks: seq<Hook>

    /** The state Reset establishes: default sink, clock and formatter, no hooks. */
    ghost predicate IsDefault()
      reads this
    {
      hooks == [] && out == stdout && clock == WallClock && formatter == JsonFormatter(marshal)
    }

    /** The event a logging call at wall-clock instant now hands to the formatter. */
    ghost function PreparedEvent(now: Timestamp, sev: Severity, msg: string,
                                 options: seq<EventOption>): Event
      reads this
    {
      FinalEvent(hooks, options, NewEvent(clock(now), sev, msg))
    }

    /** New: a logger in the default state. */
    constructor New(stdout: Sink, marshal: Marshal)
      ensures this.stdout == stdout && this.marshal == marshal
      ensures IsDefault()
    {
      this.stdout := stdout;
      this.marshal := marshal;
      hooks := [];
      out := stdout;
      clock := WallClock;
      formatter := JsonFormatter(marshal);
    }

    /** Restores the default sink, clock and formatter and drops every hook. */
    method Reset()
      modifies this
      ensures IsDefault()
    {
      hooks := [];
      out := stdout;
      clock := WallClock;
      formatter := JsonFormatter(marshal);
    }

    /** One logging call at wall-clock instant now: builds the event, runs the
        hooks and then the options, formats, and writes at most one
        newline-terminated chunk. Only the sink changes. */
    method Output(now: Timestamp, sev: Severity, msg: string, options: seq<EventOption>)
      modifies out
      ensures unchanged(this)
      ensures out.writes == old(out.writes) + Emission(formatter, PreparedEvent(now, sev, msg, options), msg)
    {
      var t := clock(now);
      var e := NewEvent(t, sev, msg);
      ghost var start := e;

      for i := 0 to |hooks|
        invariant e == ApplyAll(hooks[..i], start)
      {
        assert hooks[..i + 1][..i] == hooks[..i];
        e := hooks[i](e);
      }
      assert hooks[..|hooks|] == hooks;
      ghost var hooked := e;

      for i := 0 to |options|
        invariant e == ApplyAll(options[..i], hooked)
      {
        assert options[..i + 1][..i] == options[..i];
        e := options[i](e);
      }
      assert options[..|options|] == options;

      var r := formatter(e, msg);
      if r.Formatted? {
        var s := r.bytes;
        if |s| == 0 || s[|s| - 1] != Newline {
          s := s + [Newline];
        }
        out.Write(s);
      }
    }
  }

  /** SetOutput: replaces the sink of the default instance std. */
  method SetOutput(std: Logger, w: Sink)
    modifies std
    ensures std.out == w
    ensures std.clock == old(std.clock) && std.formatter == old(std.formatter) && std.hooks == old(std.hooks)
  {
    std.out := w;
  }

  /** SetTime: replaces the clock of the default instance std. */
  method SetTime(std: Logger, time: Clock)
    modifies std
    ensures std.clock == time
    ensures std.out == old(std.out) && std.formatter == old(std.formatter) && std.hooks == old(std.hooks)
  {
    std.clock := time;
  }

  /** SetOutputFormatter: replaces the formatter of the default instance std. */
  method SetOutputFormatter(std: Logger, f: Formatter)
    modifies std
    ensures std.formatter == f
    ensures std.out == old(std.out) && std.clock == old(std.clock) && std.hooks == old(std.hooks)
  {
    std.formatter := f;
  }

  /** RegisterHook: appends h to the hooks of the default instance std. */
  method RegisterHook(std: Logger, h: Hook)
    modifies std
    ensures std.hooks == old(std.hooks) + [h]
    ensures std.out == old(std.out) && std.clock == old(std.clock) && std.formatter == old(std.formatter)
  {
    std.hooks := std.hooks + [h];
  }

  /** Debug: a logging call on std at debug severity, without options. */
  method Debug(std: Logger, now: Timestamp, msg: string)
    modifies std.out
    ensures unchanged(std)
    ensures std.out.writes == old(std.out.writes)
                              + Emission(std.formatter, std.PreparedEvent(now, SeverityDebug, msg, []), msg)
  {
    std.Output(now, SeverityDebug, msg, []);
  }

  /** Info: a logging call on std at info severity, without options. */
  method Info(std: Logger, now: Timestamp, msg: string)
    modifies std.out
    ensures unchanged(std)
    ensures std.out.writes == old(std.out.writes)
                              + Emission(std.formatter, std.PreparedEvent(now, SeverityInfo, msg, []), msg)
  {
    std.Output(now, SeverityInfo, msg, []);
  }

  /** Error: a logging call on std at error severity, without options. */
  method Error(std: Logger, now: Timestamp, msg: string)
    modifies std.out
    ensures unchanged(std)
    ensures std.out.writes == old(std.out.writes)
                              + Emission(std.formatter, std.PreparedEvent(now, SeverityError, msg, []), msg)
  {
    std.Output(now, SeverityError, msg, []);
  }

  /** A logger in the default state stamps the wall-clock instant, runs no
      hooks, and writes what marshal makes of the event, whatever the message. */
  lemma DefaultLoggerMarshals(l: Logger, now: Timestamp, sev: Severity, msg: string,
                              options: seq<EventOption>)
    requires l.IsDefault()
    ensures l.PreparedEvent(now, sev, msg, options) == ApplyAll(options, NewEvent(now, sev, msg))
    ensures l.formatter(l.PreparedEvent(now, sev, msg, options), msg)
            == l.marshal(l.PreparedEvent(now, sev, msg, options))
  {
  }

  /** With no hook and no option touching them, the time, severity and body
      the formatter sees are the clock's reading, the call's severity and the
      call's message. */
  lemma StartingFieldsReachFormatter(l: Logger, now: Timestamp, sev: Severity, msg: string,
                                     options: seq<EventOption>)
    requires AllKeep(l.hooks, (e: Event) => e.time) && AllKeep(options, (e: Event) => e.time)
    requires AllKeep(l.hooks, (e: Event) => e.severity) && AllKeep(options, (e: Event) => e.severity)
    requires AllKeep(l.hooks, (e: Event) => e.body) && AllKeep(options, (e: Event) => e.body)
    ensures l.PreparedEvent(now, sev, msg, options).time == Some(l.clock(now))
    ensures l.PreparedEvent(now, sev, msg, options).severity == sev
    ensures l.PreparedEvent(now, sev, msg, options).body == msg
  {
    var start := NewEvent(l.clock(now), sev, msg);
    UntouchedFieldKeepsInitialValue(l.hooks, options, (e: Event) => e.time, start);
    UntouchedFieldKeepsInitialValue(l.hooks, options, (e: Event) => e.severity, start);
    UntouchedFieldKeepsInitialValue(l.hooks, options, (e: Event) => e.body, start);
  }

  /** A fresh default logger configured with a fixed clock and a tenant hook:
      one debug call writes the marshalled event that carries the fixed time,
      the debug severity, the message and the hook's tenant id. */
  method FixedClockTenantHook(marshal: Marshal, t: Timestamp, now: Timestamp, msg: string)
    returns (sink: Sink)
    ensures marshal(Event(Some(t), SeverityDebug, "", msg, map[], "tnId", None)).Formatted? ==>
              sink.writes == [Terminate(marshal(Event(Some(t), SeverityDebug, "", msg, map[], "tnId", None)).bytes)]
    ensures marshal(Event(Some(t), SeverityDebug, "", msg, map[], "tnId", None)).FormatFailed? ==>
              sink.writes == []
  {
    sink := new Sink();
    var std := new Logger.New(sink, marshal);
    SetTime(std, _ => t);
    RegisterHook(std, SetTenant("tnId"));
    ApplyAllFirst(SetTenant("tnId"), [], NewEvent(t, SeverityDebug, msg));
    Debug(std, now, msg);
  }
}
