# otellog logger — a Dafny model

This project models the `otellog` package's `Logger`. A Logger holds four things:

- a sink (an `io.Writer`);
- a clock;
- an output formatter;
- an ordered list of hooks.

A logging call does five things in order:

1. It builds an event from the clock's reading, the severity and the message.
2. It runs every hook in registration order.
3. It runs the call's own options.
4. It hands the event and the original message to the formatter.
5. If formatting succeeded, it writes the bytes to the sink, newline-terminated. If formatting failed, it writes nothing.

The package-level functions `SetOutput`, `SetTime`, `SetOutputFormatter` and `RegisterHook` configure the default instance. `Debug`, `Info` and `Error` log through it.

The model has two modules:

- `Events` (`events.dfy`) holds the pure parts of the pipeline:
  - the `Event` datatype;
  - hooks and per-call options as functions `Event -> Event`;
  - `ApplyAll`, the left fold that runs them in order;
  - `FinalEvent`, which runs the hooks and then the options;
  - `Terminate`, the newline rule;
  - `Emission`, what one call writes for a given formatter result.

  Its lemmas prove the ordering facts: last write wins, options override hooks, and untouched fields keep their initial values.
- `OtelLog` (`logger.dfy`) holds the state:
  - a `Sink` class that records the chunks written to it;
  - the `Logger` class, whose fields `out`, `clock`, `formatter` and `hooks` are updated in place by `Reset` and by the package-level setters;
  - `Logger.Output`, the logging call. It is written as the source's two loops and proved against `FinalEvent` and `Emission`.

The default instance `std` is passed explicitly to the package-level functions. `os.Stdout` and the `json.Marshal` call of the default formatter are outside the model. They are given to the constructor as `stdout` and `marshal`, and `Reset` restores them.

A clock is modelled as a function of the wall-clock instant of the call. Each logging call receives that instant as a parameter. The default clock `WallClock` returns the instant unchanged. A fixed clock, such as one set with `SetTime`, ignores it.

Some declarations live in other files of the otellog package:

- The `Event`, `Option` and `Severity` types are declared in other files of the otellog package. The model defines its own `Event`, whose fields follow the package's wire format (time, severity, name, body, attributes, tenant id and visibility), and calls the package's `Option`, the per-call event mutation, `EventOption`.
- The severity constants use the OpenTelemetry severity numbers: Debug 5, Info 9, Error 17.

In `otellog/log.go` the logging call is the unexported `output`, and the setters are package-level functions on the default instance; the model follows that.

## Model

| member | source | states |
|---|---|---|
| `Events.Terminate` | otellog/log.go:75-77 | the written chunk always ends in '\n', has the formatter's bytes as a prefix and is at most one byte longer; it equals those bytes exactly when they already end in '\n' |
| `Events.Emission` | otellog/log.go:73-79 | a logging call writes nothing exactly when the formatter fails, and otherwise exactly one newline-terminated chunk that extends the formatter's bytes; bytes that already end in '\n' are written unchanged |
| `Events.NewEvent` | otellog/log.go:58-63 | the event a logging call starts from: the clock's reading as time, the call's severity, the call's message as body, every other field empty |
| `Events.JsonFormatter` | otellog/log.go:48-50 | the default formatter returns what marshalling the event gives, whatever the message argument |
| `Events.ApplyAll` | otellog/log.go:65-71 | the reference fold for the hook and option loops: the empty list leaves the event as built and a single mutation is applied to the untouched event; the order for longer lists is stated by `ApplyAllFirst` and `ApplyAllAppend` |
| `Events.ApplyAllFirst` | otellog/log.go:65-67 | the first registered hook is applied first, to the untouched event |
| `Events.FinalEvent` | otellog/log.go:65-71 | the event handed to the formatter is one fold over the hooks followed by the per-call options |
| `Events.LastMutationDecides` | otellog/log.go:65-71 | a field is whatever the last mutation that may change it made of it, for any mutation, including ones whose write depends on the event |
| `Events.ApplyAllAppend` | otellog/log.go:65-71 | running one list of event mutations and then another equals running their concatenation, so the event is the left fold of the mutations in list order |
| `Events.KeptFieldSurvives` | otellog/log.go:65-71 | a field that no mutation in the list changes keeps its value through the whole fold |
| `Events.LastWriteWins` | otellog/log.go:65-71 | after a mutation that writes a value into a field, that value survives every later mutation that leaves the field alone, whatever ran before |
| `Events.UntouchedFieldKeepsInitialValue` | otellog/log.go:58-71 | a field that neither the hooks nor the options touch reaches the formatter with its value in the first event |
| `Events.LaterHookWins` | otellog/log.go:65-71 | a later hook's write to a field wins over every earlier hook's write, provided no later hook and no option touches that field |
| `Events.OptionOverridesHooks` | otellog/log.go:65-71 | a per-call option's write to a field overrides whatever any hook wrote to it |
| `OtelLog.WallClock` | otellog/log.go:47 | the default clock, `time.Now`: it reports the wall-clock instant of the call |
| `OtelLog.Sink.Write` | otellog/log.go:78 | a write appends exactly one chunk to the sink and keeps what was written before |
| `OtelLog.Logger.New` | otellog/log.go:28-32 | a new logger is in the reset state: no hooks, standard output, wall clock, JSON formatter |
| `OtelLog.Logger.Reset` | otellog/log.go:42-51 | Reset empties the hook list and restores the default sink, clock and formatter |
| `OtelLog.Logger.Output` | otellog/log.go:54-80 | the sink gains exactly what `Emission` prescribes for the formatter applied to the clock-stamped event after the hooks and then the options, together with the original message; the logger's sink choice, clock, formatter and hooks are unchanged |
| `OtelLog.SetOutput` | otellog/log.go:83-87 | the default instance's sink becomes the given writer; clock, formatter and hooks are unchanged |
| `OtelLog.SetTime` | otellog/log.go:90-94 | the default instance's clock becomes the given one; sink, formatter and hooks are unchanged |
| `OtelLog.SetOutputFormatter` | otellog/log.go:97-101 | the default instance's formatter becomes the given one; sink, clock and hooks are unchanged |
| `OtelLog.RegisterHook` | otellog/log.go:105-109 | the hook is appended after the existing hooks, which keep their order; sink, clock and formatter are unchanged |
| `OtelLog.Debug` | otellog/log.go:112-114 | a logging call on the default instance at severity 5 with no options; only the sink changes |
| `OtelLog.Info` | otellog/log.go:122-124 | a logging call on the default instance at severity 9 with no options; only the sink changes |
| `OtelLog.Error` | otellog/log.go:132-134 | a logging call on the default instance at severity 17 with no options; only the sink changes |
| `OtelLog.DefaultLoggerMarshals` | otellog/log.go:45-73 | a logger in the reset state stamps the wall-clock instant, runs no hooks, and formats with the marshaller alone, ignoring the message argument |
| `OtelLog.StartingFieldsReachFormatter` | otellog/log.go:58-73 | when no hook or option touches them, the formatter sees the clock's reading as time, the call's severity and the call's message as body |
| `OtelLog.FixedClockTenantHook` | otellog/log.go:28-114 | after New, SetTime with a fixed clock and a hook that sets the tenant id, one Debug call writes exactly the newline-terminated marshalled event with that time, severity 5, the message and the tenant id, or nothing if marshalling fails |

## Left out

- The `sync.Mutex` locking is left out. The model is one sequential instance, so the serialisation of concurrent calls is not captured, and neither is the deadlock described in the next line.
- Hooks, options, clocks and formatters are modelled as pure functions that always return. The source's closures may panic (nothing is written and the panic reaches the caller), may keep state across calls (two identical calls can then log differently), or may call back into the same logger, which deadlocks because the lock is held from the clock read to the write (otellog/log.go:55-78). `Logger.Output`, `Debug`, `Info` and `Error` therefore promise a completed call with its `Emission` write, which the source guarantees only for callbacks that return without re-entering the logger.
- The `context.Context` argument of hooks and logging calls is dropped. `output` only passes it on to the hooks.
- `Default()` and the global `std` variable are left out. The default instance is an explicit `Logger` argument of the package-level functions.
- `os.Stdout`, `time.Now` and `json.Marshal` are foreign. They become, in order:
  - the constructor's `stdout` sink;
  - `WallClock` applied to the instant given to each call;
  - the constructor's `marshal` function.
- Nil values are excluded by the model's types: `Sink` is a non-null class and clocks, formatters, hooks and options are total functions. The source accepts a nil writer, clock, formatter, hook or option without validation, and the next logging call then panics while holding the lock (at the clock read, the hook or option call, the formatter call, or the write). The model therefore promises that every logging call completes with its `Emission` write, which the source does not for nil configuration.
- The error result of `io.Writer.Write`, which the source ignores, is left out. A write always appends its chunk.
- `Debugf`, `Infof` and `Errorf` differ from `Debug`, `Info` and `Error` only in building the message with `fmt.Sprintf` instead of `fmt.Sprint`. Message construction is not part of this model, so the three wrappers take the finished message and cover both variants.
- A formatter returning both bytes and a non-nil error is modelled as an error alone. The source discards the bytes in that case too.
- A formatter receives the event through a pointer and could change it. The event is discarded right after formatting, so this has no effect the model could show.
