/** The log event of the otellog package and the pure parts of its output
    pipeline: building the first event, running event mutations (hooks and
    per-call options) in order, and newline-terminating the formatted bytes. */
module Events {

  /** A value that may be absent (a nil pointer in the source). */
  datatype Maybe<T> = None | Some(value: T)

  /** A byte of formatted output. */
  newtype Byte = b: int | 0 <= b < 256

  /** The byte '\n'. */
  const Newline: Byte := 10

  /** An instant on the wall clock, in nanoseconds. */
  type Timestamp = int

  /** OpenTelemetry severity numbers. */
  type Severity = int
  const SeverityDebug: Severity := 5
  const SeverityInfo: Severity := 9
  const SeverityError: Severity := 17

  /** A log event. Every field but time, severity and body starts empty and is
      only ever filled in by hooks and per-call options. */
  datatype Event = Event(
    time: Maybe<Timestamp>,
    severity: Severity,
    name: string,
    body: string,
    attributes: map<string, string>,
    tenantId: string,
    visibility: Maybe<int>)

  /** A hook or a per-call option: it may change any field of the event. */
  type Mutation = Event -> Event
  type Hook = Mutation
  type EventOption = Mutation

  /** What a formatter returns: the serialised event, or an error. */
  datatype FormatResult = Formatted(bytes: seq<Byte>) | FormatFailed(reason: string)

  /** A formatter sees the event and the original message. */
  type Formatter = (Event, string) -> FormatResult

  /** A serialiser of events alone (JSON marshalling, for the default formatter). */
  type Marshal = Event -> FormatResult

  /** The default formatter: marshals the event and ignores the message. */
  function JsonFormatter(marshal: Marshal): (f: Formatter)
    ensures forall e, msg :: f(e, msg) == marshal(e)
  {
    (e: Event, msg: string) => marshal(e)
  }

  /** The event a logging call starts from, before any hook runs. */
  function NewEvent(t: Timestamp, sev: Severity, msg: string): (e: Event)
    ensures e.time == Some(t) && e.severity == sev && e.body == msg
    ensures e.name == "" && e.attributes == map[] && e.tenantId == "" && e.visibility == None
  {
    Event(Some(t), sev, "", msg, map[], "", None)
  }

  /** The result of applying fs to e in order: the last mutation is applied
      last, to the result of all the others, as one loop iteration does. */
  function ApplyAll(fs: seq<Mutation>, e: Event): (r: Event)
    ensures fs == [] ==> r == e
    ensures |fs| == 1 ==> r == fs[0](e)
    decreases |fs|
  {
    if fs == [] then e else fs[|fs| - 1](ApplyAll(fs[..|fs| - 1], e))
  }

  /** The event handed to the formatter: every hook in registration order,
      then every per-call option in order. */
  function FinalEvent(hooks: seq<Hook>, options: seq<EventOption>, start: Event): (e: Event)
    ensures e == ApplyAll(hooks + options, start)
  {
    ApplyAllAppend(hooks, options, start);
    ApplyAll(options, ApplyAll(hooks, start))
  }

  predicate EndsInNewline(s: seq<Byte>)
  {
    |s| > 0 && s[|s| - 1] == Newline
  }

  /** Newline termination of the formatted bytes: one '\n' is added unless
      the bytes already end in one. */
  function Terminate(s: seq<Byte>): (r: seq<Byte>)
    ensures EndsInNewline(r)
    ensures s <= r && |r| <= |s| + 1
    ensures r == s <==> EndsInNewline(s)
  {
    if |s| == 0 || s[|s| - 1] != Newline then s + [Newline] else s
  }

  /** The chunks one logging call writes to its sink, given the event and
      message passed to the formatter: none when formatting fails, otherwise
      exactly one newline-terminated chunk that extends the formatted bytes. */
  function Emission(f: Formatter, e: Event, msg: string): (w: seq<seq<Byte>>)
    ensures w == [] <==> f(e, msg).FormatFailed?
    ensures |w| <= 1
    ensures f(e, msg).Formatted? && EndsInNewline(f(e, msg).bytes) ==> w == [f(e, msg).bytes]
    ensures forall k :: 0 <= k < |w| ==>
              EndsInNewline(w[k]) && f(e, msg).bytes <= w[k] && |w[k]| <= |f(e, msg).bytes| + 1
  {
    match f(e, msg)
    case Formatted(s) => [Terminate(s)]
    case FormatFailed(_) => []
  }

  /** f never changes the value field reads. */
  ghost predicate Keeps<T>(f: Mutation, field: Event -> T)
  {
    forall e :: field(f(e)) == field(e)
  }

  /** f always leaves v in the value field reads. */
  ghost predicate Writes<T>(f: Mutation, field: Event -> T, v: T)
  {
    forall e :: field(f(e)) == v
  }

  ghost predicate AllKeep<T>(fs: seq<Mutation>, field: Event -> T)
  {
    forall k :: 0 <= k < |fs| ==> Keeps(fs[k], field)
  }

  /** Running fs and then gs is running their concatenation. */
  lemma {:induction false} ApplyAllAppend(fs: seq<Mutation>, gs: seq<Mutation>, e: Event)
    ensures ApplyAll(fs + gs, e) == ApplyAll(gs, ApplyAll(fs, e))
    decreases |gs|
  {
    if gs == [] {
      assert fs + gs == fs;
    } else {
      var init := gs[..|gs| - 1];
      assert (fs + gs)[..|fs + gs| - 1] == fs + init;
      assert (fs + gs)[|fs + gs| - 1] == gs[|gs| - 1];
      ApplyAllAppend(fs, init, e);
    }
  }

  /** The first mutation in the list is applied first, to the untouched event. */
  lemma {:induction false} ApplyAllFirst(f: Mutation, fs: seq<Mutation>, e: Event)
    ensures ApplyAll([f] + fs, e) == ApplyAll(fs, f(e))
  {
    ApplyAllAppend([f], fs, e);
  }

  /** A field that no mutation in fs touches keeps its value through the fold. */
  lemma {:induction false} KeptFieldSurvives<T>(fs: seq<Mutation>, field: Event -> T, e: Event)
    requires AllKeep(fs, field)
    ensures field(ApplyAll(fs, e)) == field(e)
    decreases |fs|
  {
    if fs != [] {
      var init := fs[..|fs| - 1];
      assert AllKeep(init, field) by {
        forall k | 0 <= k < |init| ensures Keeps(init[k], field) {
          assert init[k] == fs[k];
        }
      }
      KeptFieldSurvives(init, field, e);
      assert Keeps(fs[|fs| - 1], field);
    }
  }

  /** The last mutation before a run of mutations that keep a field decides
      that field: it is whatever that mutation made of it. */
  lemma LastMutationDecides<T>(pre: seq<Mutation>, w: Mutation, post: seq<Mutation>,
                               field: Event -> T, e: Event)
    requires AllKeep(post, field)
    ensures field(ApplyAll(pre + [w] + post, e)) == field(w(ApplyAll(pre, e)))
  {
    ApplyAllAppend(pre + [w], post, e);
    assert (pre + [w])[..|pre + [w]| - 1] == pre;
    KeptFieldSurvives(post, field, ApplyAll(pre + [w], e));
  }

  /** Last write wins: after a mutation that writes v into a field, no later
      mutation that keeps the field can change it, whatever ran before. */
  lemma LastWriteWins<T>(pre: seq<Mutation>, w: Mutation, post: seq<Mutation>,
                         field: Event -> T, v: T, e: Event)
    requires Writes(w, field, v)
    requires AllKeep(post, field)
    ensures field(ApplyAll(pre + [w] + post, e)) == v
  {
    LastMutationDecides(pre, w, post, field, e);
  }

  /** A field that neither the hooks nor the options touch reaches the
      formatter with the value it had in the first event. */
  lemma UntouchedFieldKeepsInitialValue<T>(hooks: seq<Hook>, options: seq<EventOption>,
                                           field: Event -> T, start: Event)
    requires AllKeep(hooks, field) && AllKeep(options, field)
    ensures field(FinalEvent(hooks, options, start)) == field(start)
  {
    KeptFieldSurvives(hooks, field, start);
    KeptFieldSurvives(options, field, ApplyAll(hooks, start));
  }

  /** A later hook's write wins over an earlier one's: the last hook that
      writes a field decides it, provided no option touches that field. */
  lemma LaterHookWins<T>(pre: seq<Hook>, w: Hook, post: seq<Hook>, options: seq<EventOption>,
                         field: Event -> T, v: T, start: Event)
    requires Writes(w, field, v)
    requires AllKeep(post, field) && AllKeep(options, field)
    ensures field(FinalEvent(pre + [w] + post, options, start)) == v
  {
    LastWriteWins(pre, w, post, field, v, start);
    KeptFieldSurvives(options, field, ApplyAll(pre + [w] + post, start));
  }

  /** A per-call option's write overrides whatever every hook wrote. */
  lemma OptionOverridesHooks<T>(hooks: seq<Hook>, pre: seq<EventOption>, w: EventOption,
                                post: seq<EventOption>, field: Event -> T, v: T, start: Event)
    requires Writes(w, field, v)
    requires AllKeep(post, field)
    ensures field(FinalEvent(hooks, pre + [w] + post, start)) == v
  {
    LastWriteWins(pre, w, post, field, v, ApplyAll(hooks, start));
  }

  /** A mutation that sets the tenant id, as a hook typically does. */
  function SetTenant(tn: string): Mutation
  {
    (e: Event) => e.(tenantId := tn)
  }
}
