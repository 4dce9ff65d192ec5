# LogPrint in Dafny

`LogPrint` is a small Python class that stands in for the built-in `print`:
each call is written to the screen, to a log file, or to both, optionally
prefixed with a timestamp. Only one instance may be alive at a time, which
a class-level counter `_ninst` enforces. The repository holds two versions
of the class:

- version 1.1.0 (`logprint/logprint/logprint.py`) steers output with a
  configuration dict of four options. The options are `timestamp_format`,
  `timestamp`, `screen` and `file`. `set_config` changes the dict for good.
  A `print` call may override options for itself alone. Keyword arguments
  that name no option are passed on to the built-in `print`;
- version 0.1.0 (`logprint/logprint.py`) picks the sinks per call with a
  `mode` keyword (`'both'`, `'screen'` or `'file'`).

The model is functional. A Python value is a `Values.Value`, and keyword
arguments are a map from names to values. A call of the built-in `print`
is recorded as a `Trace.Event`: the branch that issued it (screen or
file), the positional arguments and the keyword arguments. Each `print` of
the class is a function that returns the list of such events. The clock
and `strftime` become a `Moment` and a formatting function passed in as
parameters. The file handle is an opaque value passed to the constructor.

The files are:

- `values.dfy`: Python values, truthiness, keyword maps, the clock.
- `trace.dfy`: events, and the two-branch dispatch both versions share.
- `configuration.dfy`: the option dict, `set_temp_config` and `set_config`.
- `guard.dfy`: the instance counter as a state machine. In `InstanceGuard.Step`, `Construct` is
  `__new__`'s refusal while the counter is non-zero (`logprint/logprint/logprint.py:53-55`)
  or else `__init__`'s increment (`:66`). `AbortedInit` is an `__init__` that raises before
  that increment, followed by `__del__`'s decrement (`:89`). `Collect` is `__del__`'s
  decrement for a live instance (`:89`).
- `logprint.dfy`: version 1.1.0.
- `logprint_legacy.dfy`: version 0.1.0.
- `versions.dfy`: how the two versions relate.

Where the class docstring of version 1.1.0
(`logprint/logprint/logprint.py:25-44`) or the docstrings of its methods
differ from the code, the model follows the code:

- In version 1.1.0, `file` is an option name. So a caller's `file=` turns
  the file sink on or off and never reaches the built-in `print`.
- When opening the log file fails, the handle stays `None` and file output
  stays enabled. File writes are still issued, with `file=None`.
- `__new__` accepts any arguments, but `__init__` does not. A construction
  with an argument `__init__` does not take raises before the counter goes
  up, and the discarded object's `__del__` still brings it down. See
  Findings.
- A refused construction prints an error message and yields `None`. It
  raises no exception.
- The header is printed by default. See Findings.

## Model

| member | source | states |
|---|---|---|
| `Configuration.Default` | logprint/logprint/logprint.py:72-76 | A fresh configuration has exactly the four option names. The format is `[%Y-%m-%d %H:%M:%S]`. Timestamps are off, and screen and file output are on. |
| `Configuration.SetTempConfig` | logprint/logprint/logprint.py:104-113 | The temporary copy has exactly the stored option names. A keyword naming an option overrides it in the copy. Every other keyword goes to the excess map, unchanged. Options the call does not name keep their stored value. |
| `Configuration.SplitKwargs` | logprint/logprint/logprint.py:104-113 | The loop over the keyword names, as written, yields exactly the copy and excess map that `SetTempConfig` describes, whatever order it visits the names in. |
| `Configuration.SplitRecombines` | logprint/logprint/logprint.py:107-111 | Put back together, the overridden entries and the excess map give exactly the call's keyword arguments. Nothing is lost and nothing is invented. |
| `Configuration.SplitSeparatesNames` | logprint/logprint/logprint.py:107-111 | The copy and the excess map share no name. Together they cover every option name and every keyword name. |
| `Configuration.SetConfig` | logprint/logprint/logprint.py:115-121 | `set_config` keeps the key set. Named options take the call's values and the others keep theirs. Unknown names are never added. |
| `Configuration.SetConfigIdempotent` | logprint/logprint/logprint.py:121 | Applying the same `set_config` twice gives the same configuration as applying it once. |
| `Configuration.SetConfigComposes` | logprint/logprint/logprint.py:121 | Two `set_config` calls equal one call with the merged arguments, the later call winning. |
| `Trace.FileKwargs` | logprint/logprint/logprint.py:140-141 | The file write's keywords are the screen write's keywords, except that `file` is the handle and `flush` is `True`. |
| `Trace.Dispatch` | logprint/logprint/logprint.py:136-142 | A screen write happens iff screen is on, and a file write iff file is on. The screen write comes first. Both writes get the same positional arguments. When both happen they mirror each other apart from `file`/`flush`. |
| `LogPrint.Print` | logprint/logprint/logprint.py:123-142 | Writes are stated in terms of the effective option values (the call's override, else the stored value). Screen is written iff effective `screen` is truthy, file iff effective `file` is truthy, screen first. With `timestamp` truthy, every write's positional arguments are the formatted time followed by the call's arguments; otherwise they are the call's arguments. The screen write gets exactly the keywords that name no option. The file write gets the same, with `file` = handle and `flush` = `True`. |
| `LogPrint.SetLoggerConfig` | logprint/logprint/logprint.py:115-121 | `set_config` on an instance keeps its name, file and handle and keeps the key set. Named options take the call's values, the rest are unchanged, and unknown names are never added. |
| `LogPrint.New` | logprint/logprint/logprint.py:48-83 | While the counter is non-zero, construction yields no instance, leaves the counter alone and prints the refusal message. Otherwise the counter goes up by one and the instance starts from the default configuration. The trace is empty unless `print_header` is truthy. If it is, the header message is written to the screen and then to the file. |
| `LogPrint.NewWithDefaultsAsWritten` | logprint/logprint/logprint.py:59-83 | With the default `print_header='False'`, every successful construction writes the header line twice: first to the screen with no keywords, then to the file with `file` = handle and `flush` = `True`. |
| `LogPrint.NewWithDefaults` | logprint/logprint/logprint.py:59-83 | With `print_header` defaulting to `False`, a successful construction writes nothing. The instance starts from the default configuration. |
| `LogPrint.InlineOverrideIsTemporarySetConfig` | logprint/logprint/logprint.py:131-142 | A `print` with option overrides writes exactly what an instance given those options by `set_config` writes for the remaining keywords. |
| `LogPrint.After` | logprint/logprint/logprint.py:115-131 | A `print` call leaves the instance unchanged. A `set_config` call keeps the configuration's key set, the file name, the script name and the handle. |
| `LogPrint.Emit` | logprint/logprint/logprint.py:121-142 | A `set_config` call prints nothing, and a `print` call issues at most two writes. |
| `LogPrint.Replay` | logprint/logprint/logprint.py:104-131 | Any sequence of `set_config` and `print` calls keeps the configuration's key set, the file name, the script name and the handle. |
| `LogPrint.Output` | logprint/logprint/logprint.py:123-142 | A sequence of calls issues at most two writes per call. |
| `LogPrint.ConfigCalls` | logprint/logprint/logprint.py:115-131 | The selected calls are exactly the `set_config` calls of the sequence: each one is among them, and nothing else is. |
| `LogPrint.PrintsDoNotPersist` | logprint/logprint/logprint.py:123-142 | After any sequence of calls, the instance equals the one the `set_config` calls alone produce. `print` overrides never persist. |
| `LogPrint.PrintSeesOnlyEarlierSetConfig` | logprint/logprint/logprint.py:115-142 | The writes of a `print` at the end of a sequence are exactly those of a single `print` on the instance the earlier `set_config` calls alone produce. |
| `InstanceGuard.RunKeepsAtMostOneLive` | logprint/logprint/logprint.py:53-89 | As written, with aborted constructions included: start where the counter equals the number of live instances and that number is at most one, or in the locked-out state. Then every sequence of steps keeps at most one instance alive. The counter equals the number of live instances unless it has been driven to -1 with nothing alive. |
| `InstanceGuard.AbortedInitLocksOut` | logprint/logprint/logprint.py:53-89 | As written, a construction whose `__init__` raises, made while no instance exists, leaves the counter at -1. After it, every sequence of steps ends with the counter at -1 and no instance alive. |
| `InstanceGuard.LockedOutIsFinal` | logprint/logprint/logprint.py:53-57 | Once the counter is -1 with nothing alive, every later construction is refused and the state never changes again. |
| `InstanceGuard.GuardedRunKeepsSingleInstance` | logprint/logprint/logprint.py:59-89 | With `__del__` unregistering only an object that registered, every sequence of steps keeps `_ninst` equal to the number of live instances, and that number is at most one. Aborted constructions are among the steps. |
| `InstanceGuard.GuardedAbortedInitHarmless` | logprint/logprint/logprint.py:53-89 | With the corrected `__del__`, a construction that succeeds after an aborted one yields the single live instance. |
| `InstanceGuard.ConstructionsRefusedWhileLive` | logprint/logprint/logprint.py:53-57 | While an instance is alive, any number of further constructions leaves counter and instances exactly as they were. |
| `InstanceGuard.ConstructAfterCollect` | logprint/logprint/logprint.py:85-89 | After `__del__` has unregistered the live instance, a new construction succeeds again. |
| `LogPrintLegacy.Print` | logprint/logprint.py:70-83 | `'both'` (also the default) writes screen then file. `'screen'` writes only to the screen and `'file'` only to the file. Any other mode writes nothing. Both writes get the positional arguments untouched. `mode` never reaches the built-in `print`. The screen write gets the caller's other keywords unchanged. The file write gets them with `file` = handle and `flush` = `True`. |
| `LogPrintLegacy.New` | logprint/logprint.py:32-56 | While the counter is non-zero, construction yields no instance, leaves the counter alone and prints the refusal message. Otherwise the counter goes up by one and nothing is printed. |
| `Versions.LaterVersionCoversModes` | logprint/logprint.py:78-83 | For each of the three modes, version 0.1.0 writes exactly what a fresh 1.1.0 instance writes when given the matching `screen`/`file` options. This assumes the caller's other keywords name no option. |
| `Versions.ConstructorsFollowGuard` | logprint/logprint.py:37-49 | Both constructors move the counter exactly as a construction step of the guard machine does: the 0.1.0 one cited here, and the 1.1.0 one (`__new__` and the increment in `__init__`, logprint/logprint/logprint.py:53-66). They yield an instance exactly when the machine admits one. |

## Left out

- Opening, writing, flushing and closing the file, and the `encoding='utf-8'` argument, are not modelled. The handle is an opaque value given to the constructor: `Handle(id)`, or `PyNone` when opening failed. In version 1.1.0 the open mode (`'w'`/`'a'`) only reaches `open`. Version 0.1.0 also stores it as `fw_mode`, which is the `LogPrintLegacy.Logger` field `fwMode`.
- The `IOError` handlers in `__init__` and `__del__`, which print the exception, are not modelled. Their messages come from the operating system.
- `__del__` on an instance whose file never opened calls `None.close()`. That raises an `AttributeError`, which the handler does not catch. The model does not give this case any behaviour. Collection only unregisters the instance. The same holds for the `__del__` of an object whose `__init__` raised: it decrements the counter, then fails on the missing `file_hnd` attribute. The model keeps only the decrement.
- `datetime.datetime.now()` and `strftime` are not modelled. They become a `Moment` argument and a formatting function passed in. A non-string `timestamp_format` would make `strftime` raise. The model's formatting function is total, so that error path is not modelled.
- How the built-in `print` renders `sep` and `end`, and where it sends `file=None`, are not modelled. The trace records its arguments instead.
- LogPrint.Print: the trace assumes the built-in `print` accepts every keyword passed on to it. A keyword it rejects raises `TypeError` at the screen write, and that ends the call before the file write. Examples are a misspelt option such as `timestmp=True`, which is passed on as an excess keyword, or `sep=5`. The model still records both writes.
- LogPrintLegacy.Print: the same assumption. A rejected keyword ends the call at the screen write, and the model still records the file write.
- Trace.Dispatch: records every enabled write as if the built-in `print` accepted its keywords. It does not model a screen write that raises and so prevents the file write.
- InstanceGuard.RunKeepsAtMostOneLive: promises that the counter equals the number of live instances only until the counter reaches -1. The equality holds for every run only in the corrected machine (`GuardedRun`). As written, an aborted construction breaks the equality for good. See Findings.
- Python's object model is not modelled: `__new__` returning `None` skips `__init__`, and `__del__` runs at a moment the collector picks. Construction and collection are explicit steps of `InstanceGuard`.
- `argv[0]` is not modelled. The script name is a string parameter.
- In version 1.1.0 the refusal message uses `cls.__name__`, which would differ for a subclass. The model uses the literal class name `LogPrint`. Version 0.1.0 uses `LogPrint.__name__`, so its literal message in `LogPrintLegacy.RefusalMessage` is exact even for a subclass.
- An object with a custom `__bool__` or `__eq__` is represented by `Other(id, truth)`. It carries its truth value, and equality with a mode string is structural.
- The `__main__` demonstration blocks of both files are not modelled. They rebind the global `print`.
- Thread safety of the counter is not modelled. The code does not provide it.

## Findings

| source | as written | input that shows it | evidently intended | confidence | as-written member | corrected member |
|---|---|---|---|---|---|---|
| logprint/logprint/logprint.py:59 | `print_header` defaults to the string `'False'`. Line 82 tests `if print_header:`, and any non-empty string is truthy there. | `LogPrint()` with no arguments and counter 0 writes the header line to screen and file. | The default is the boolean `False`, so no header is written unless one is asked for. | not executed | `LogPrint.NewWithDefaultsAsWritten` | `LogPrint.NewWithDefaults` |
| logprint/logprint/logprint.py:59-89 | `__init__` registers the instance at line 66, but `__new__` (line 48) accepts any arguments and `__init__` (line 59) only three. An unknown keyword makes `__init__` raise before line 66. The discarded object's `__del__` still runs line 89 and decrements. Version 0.1.0 does the same (`logprint/logprint.py:43`, `:62`). | `LogPrint(foo=1)` with counter 0 raises `TypeError` and leaves `_ninst` at -1. Every later `LogPrint()` is refused, because -1 is truthy at line 53. | Only an instance that registered unregisters itself, so a failed construction leaves the counter at 0. | not executed | `InstanceGuard.AbortedInitLocksOut` | `InstanceGuard.GuardedRunKeepsSingleInstance` |
