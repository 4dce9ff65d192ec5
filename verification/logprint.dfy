/** `LogPrint` version 1.1.0: one `print` call mirrored to the screen and to
    a log file, steered by a configuration that a call may override for
    itself alone. */
module LogPrint {
  import opened Values
  import opened Trace
  import opened Configuration
  import opened InstanceGuard

  /** One instance. `fileHandle` is what `open` returned, or `PyNone` when
      opening failed; `scriptName` is the running script's path. */
  datatype Logger = Logger(scriptName: string, fileName: string, fileHandle: Value, configuration: Config)

  /** The configuration always holds exactly the recognised option names:
      `__init__` creates it so and `set_config` only overwrites. */
  ghost predicate Valid(lg: Logger)
  {
    lg.configuration.Keys == ConfigKeys
  }

  const RefusalMessage := "Error: only one instance of LogPrint allowed"
  const DefaultFileName := "log.txt"

  /** The default of `print_header` as written: the string 'False'. */
  const PrintHeaderAsWritten := Str("False")
  /** The default of `print_header` the docstring describes. */
  const PrintHeaderIntended := Bool(false)

  function HeaderMessage(scriptName: string, fileName: string): string
  {
    "logging " + scriptName + " to " + fileName
  }

  /** `print(*args, **kw)` at moment `now`: the builtin `print` calls made. */
  function Print(lg: Logger, strftime: Strftime, now: Moment, args: seq<Value>, kw: Kwargs): (trace: seq<Event>)
    requires Valid(lg)
    // a screen write happens iff the effective `screen` is true, a file
    // write iff the effective `file` is true, and the screen write comes first
    ensures var screen := Truthy(Setting(lg.configuration, kw, ScreenKey));
            var file := Truthy(Setting(lg.configuration, kw, FileKey));
            && |trace| == (if screen then 1 else 0) + (if file then 1 else 0)
            && (screen <==> |trace| > 0 && trace[0].sink == Screen)
            && (file <==> |trace| > 0 && trace[|trace| - 1].sink == File)
    // with the effective `timestamp` true, the formatted time goes first
    ensures forall e :: e in trace ==>
              e.args == if Truthy(Setting(lg.configuration, kw, TimestampKey))
                        then [Str(strftime(now, Setting(lg.configuration, kw, TimestampFormatKey)))] + args
                        else args
    // the screen write gets exactly the arguments that name no option;
    // the file write gets the same with `file` and `flush` forced
    ensures forall e :: e in trace && e.sink == Screen ==> Forwards(e.kwargs, kw, ConfigKeys)
    ensures forall e :: e in trace && e.sink == File ==> ForwardsToFile(e.kwargs, kw, ConfigKeys, lg.fileHandle)
    ensures |trace| == 2 ==> Mirrors(trace[0], trace[1])
  {
    var (temp, printKwargs) := SetTempConfig(lg.configuration, kw);
    var items := if Truthy(temp[TimestampKey])
                 then [Str(strftime(now, temp[TimestampFormatKey]))] + args
                 else args;
    ForwardsThenFile(printKwargs, kw, ConfigKeys, lg.fileHandle);
    Dispatch(Truthy(temp[ScreenKey]), Truthy(temp[FileKey]), items, printKwargs, lg.fileHandle)
  }

  /** `set_config(**kw)`: the instance with its configuration overridden. */
  function SetLoggerConfig(lg: Logger, kw: Kwargs): (r: Logger)
    requires Valid(lg)
    ensures Valid(r)
    ensures r.scriptName == lg.scriptName && r.fileName == lg.fileName && r.fileHandle == lg.fileHandle
    ensures forall k :: k in ConfigKeys && k in kw ==> r.configuration[k] == kw[k]
    ensures forall k :: k in ConfigKeys && k !in kw ==> r.configuration[k] == lg.configuration[k]
    ensures forall k :: k in kw && k !in ConfigKeys ==> k !in r.configuration
  {
    lg.(configuration := SetConfig(lg.configuration, kw))
  }

  /** `LogPrint(file, write_mode, print_header)` with class counter `ninst`.
      `handle` is what opening the file produced. */
  function New(ninst: int, scriptName: string, fileName: string, handle: Value, printHeader: Value,
               strftime: Strftime, now: Moment): (r: Construction<Logger>)
    // refused while the counter is non-zero, leaving it alone
    ensures Occupied(ninst) <==> r.instance.None?
    ensures Occupied(ninst) ==>
              r.ninst == ninst && r.trace == [Write(Screen, [Str(RefusalMessage)], map[])]
    // otherwise the counter goes up and the instance starts from the defaults
    ensures !Occupied(ninst) ==>
              && r.ninst == ninst + 1
              && Valid(r.instance.value)
              && r.instance.value == Logger(scriptName, fileName, handle, Default())
    // the header is printed through the default routing: screen, then file
    ensures !Occupied(ninst) ==>
              r.trace == if Truthy(printHeader)
                         then [Write(Screen, [Str(HeaderMessage(scriptName, fileName))], map[]),
                               Write(File, [Str(HeaderMessage(scriptName, fileName))],
                                     map[FileName := handle, FlushName := Bool(true)])]
                         else []
  {
    if Occupied(ninst) then
      Construction(ninst, None, [Write(Screen, [Str(RefusalMessage)], map[])])
    else
      var lg := Logger(scriptName, fileName, handle, Default());
      var header := if Truthy(printHeader)
                    then Print(lg, strftime, now, [Str(HeaderMessage(scriptName, fileName))], map[])
                    else [];
      Construction(ninst + 1, Some(lg), header)
  }

  /** `LogPrint()` with the defaults as written: since 'False' is a
      non-empty string, a successful construction always prints the header. */
  function NewWithDefaultsAsWritten(ninst: int, scriptName: string, handle: Value,
                                    strftime: Strftime, now: Moment): (r: Construction<Logger>)
    ensures !Occupied(ninst) ==>
              r.trace == [Write(Screen, [Str(HeaderMessage(scriptName, DefaultFileName))], map[]),
                          Write(File, [Str(HeaderMessage(scriptName, DefaultFileName))],
                                map[FileName := handle, FlushName := Bool(true)])]
  {
    New(ninst, scriptName, DefaultFileName, handle, PrintHeaderAsWritten, strftime, now)
  }

  /** `LogPrint()` with `print_header` defaulting to `False` as documented:
      no header unless asked for. */
  function NewWithDefaults(ninst: int, scriptName: string, handle: Value,
                           strftime: Strftime, now: Moment): (r: Construction<Logger>)
    ensures !Occupied(ninst) ==> r.trace == []
    ensures r.instance.Some? ==> r.instance.value.configuration == Default()
  {
    New(ninst, scriptName, DefaultFileName, handle, PrintHeaderIntended, strftime, now)
  }

  /** A call's option overrides act as a `set_config` that lasts for that
      call only: the output equals that of an instance configured with them,
      given the remaining keyword arguments. */
  lemma InlineOverrideIsTemporarySetConfig(lg: Logger, strftime: Strftime, now: Moment,
                                           args: seq<Value>, kw: Kwargs)
    requires Valid(lg)
    ensures Print(lg, strftime, now, args, kw)
         == Print(SetLoggerConfig(lg, kw), strftime, now, args, map k | k in kw && k !in ConfigKeys :: kw[k])
  {
    var rest := map k | k in kw && k !in ConfigKeys :: kw[k];
    var lg' := SetLoggerConfig(lg, kw);
    assert SetTempConfig(lg'.configuration, rest).0 == lg'.configuration;
    assert SetTempConfig(lg'.configuration, rest).1 == SetTempConfig(lg.configuration, kw).1;
  }

  /** The calls an instance receives after construction. */
  datatype Call =
    | SetConfigCall(kw: Kwargs)
    | PrintCall(now: Moment, args: seq<Value>, kw: Kwargs)

  /** The instance after one call: `set_config` replaces the configuration,
      `print` leaves the instance as it was. */
  function After(lg: Logger, call: Call): (r: Logger)
    requires Valid(lg)
    ensures Valid(r)
    ensures r.scriptName == lg.scriptName && r.fileName == lg.fileName && r.fileHandle == lg.fileHandle
    ensures call.PrintCall? ==> r == lg
  {
    match call
    case SetConfigCall(kw) => SetLoggerConfig(lg, kw)
    case PrintCall(_, _, _) => lg
  }

  /** What one call prints: `set_config` prints nothing, `print` at most
      one write per sink. */
  function Emit(lg: Logger, strftime: Strftime, call: Call): (trace: seq<Event>)
    requires Valid(lg)
    ensures call.SetConfigCall? ==> trace == []
    ensures |trace| <= 2
  {
    match call
    case SetConfigCall(_) => []
    case PrintCall(now, args, kw) => Print(lg, strftime, now, args, kw)
  }

  /** The instance after a sequence of calls, taken in order. */
  function Replay(lg: Logger, calls: seq<Call>): (r: Logger)
    requires Valid(lg)
    ensures Valid(r)
    ensures r.scriptName == lg.scriptName && r.fileName == lg.fileName && r.fileHandle == lg.fileHandle
    decreases |calls|
  {
    if calls == [] then lg
    else After(Replay(lg, calls[..|calls| - 1]), calls[|calls| - 1])
  }

  /** Everything a sequence of calls prints, each call seeing the instance
      the calls before it left. */
  function Output(lg: Logger, strftime: Strftime, calls: seq<Call>): (trace: seq<Event>)
    requires Valid(lg)
    ensures |trace| <= 2 * |calls|
    decreases |calls|
  {
    if calls == [] then []
    else
      var init := calls[..|calls| - 1];
      Output(lg, strftime, init) + Emit(Replay(lg, init), strftime, calls[|calls| - 1])
  }

  /** The `set_config` calls of a sequence, in order. */
  function ConfigCalls(calls: seq<Call>): (r: seq<Call>)
    ensures forall c :: c in r ==> c in calls && c.SetConfigCall?
    ensures forall c :: c in calls && c.SetConfigCall? ==> c in r
    decreases |calls|
  {
    if calls == [] then []
    else
      var last := calls[|calls| - 1];
      var init := ConfigCalls(calls[..|calls| - 1]);
      assert calls == calls[..|calls| - 1] + [last];
      if last.SetConfigCall? then init + [last] else init
  }

  /** `print` never changes the instance: after any sequence of calls, the
      instance is the one the `set_config` calls alone would produce. */
  lemma {:induction false} PrintsDoNotPersist(lg: Logger, calls: seq<Call>)
    requires Valid(lg)
    ensures Replay(lg, calls) == Replay(lg, ConfigCalls(calls))
    decreases |calls|
  {
    if calls != [] {
      var init := calls[..|calls| - 1];
      var last := calls[|calls| - 1];
      PrintsDoNotPersist(lg, init);
      var cs := ConfigCalls(init);
      if last.SetConfigCall? {
        assert ConfigCalls(calls) == cs + [last];
        assert (cs + [last])[..|cs + [last]| - 1] == cs;
      }
    }
  }

  /** Each `print` is rendered with the configuration left by the earlier
      `set_config` calls only: overrides given to earlier `print` calls
      have no effect on it. */
  lemma PrintSeesOnlyEarlierSetConfig(lg: Logger, strftime: Strftime, before: seq<Call>,
                                      now: Moment, args: seq<Value>, kw: Kwargs)
    requires Valid(lg)
    ensures Output(lg, strftime, before + [PrintCall(now, args, kw)])
         == Output(lg, strftime, before) + Print(Replay(lg, ConfigCalls(before)), strftime, now, args, kw)
  {
    var calls := before + [PrintCall(now, args, kw)];
    assert calls[..|calls| - 1] == before;
    PrintsDoNotPersist(lg, before);
  }
}
