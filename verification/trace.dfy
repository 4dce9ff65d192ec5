/** Calls of the built-in `print`, recorded as events instead of performed. */
module Trace {
  import opened Values

  /** Which of the logger's two output branches issued a call. */
  datatype Sink = Screen | File

  /** One call `builtins.print(*args, **kwargs)` issued by the given branch. */
  datatype Event = Write(sink: Sink, args: seq<Value>, kwargs: Kwargs)

  /** What a constructor call leaves behind: the class counter afterwards,
      the instance (`None` when `__new__` refused), and the output emitted. */
  datatype Construction<L> = Construction(ninst: int, instance: Option<L>, trace: seq<Event>)

  /** The keyword names the file branch overwrites before writing. */
  const FileName := "file"
  const FlushName := "flush"

  /** `sent` is `kw` without the names in `dropped`, every value unchanged. */
  ghost predicate Forwards(sent: Kwargs, kw: Kwargs, dropped: set<string>)
  {
    && sent.Keys == kw.Keys - dropped
    && forall k :: k in sent ==> sent[k] == kw[k]
  }

  /** `sent` is `kw` without the names in `dropped`, except that `file` is the
      log file's handle and `flush` is `True`, whatever `kw` said about them. */
  ghost predicate ForwardsToFile(sent: Kwargs, kw: Kwargs, dropped: set<string>, handle: Value)
  {
    && sent.Keys == (kw.Keys - dropped) + {FileName, FlushName}
    && sent[FileName] == handle
    && sent[FlushName] == Bool(true)
    && forall k :: k in kw && k !in dropped && k != FileName && k != FlushName ==> sent[k] == kw[k]
  }

  /** The keyword arguments of the file write: the screen write's arguments
      with the destination forced to the log file and flushing switched on. */
  function FileKwargs(kw: Kwargs, handle: Value): (r: Kwargs)
    ensures ForwardsToFile(r, kw, {}, handle)
  {
    kw[FileName := handle][FlushName := Bool(true)]
  }

  /** `sent` forwarded from `kw`, then given the file branch's overrides,
      is what the file write forwards from `kw`. */
  lemma ForwardsThenFile(sent: Kwargs, kw: Kwargs, dropped: set<string>, handle: Value)
    requires Forwards(sent, kw, dropped)
    ensures ForwardsToFile(FileKwargs(sent, handle), kw, dropped, handle)
  {
  }

  /** The two branches shared by both versions of `print`: if `screen`, call
      the builtin `print` with the keyword arguments as they are; then, if
      `file`, call it again with `file` and `flush` overwritten. */
  function Dispatch(screen: bool, file: bool, items: seq<Value>, kwargs: Kwargs, handle: Value): (trace: seq<Event>)
    ensures |trace| == (if screen then 1 else 0) + (if file then 1 else 0)
    ensures screen <==> |trace| > 0 && trace[0].sink == Screen
    ensures file <==> |trace| > 0 && trace[|trace| - 1].sink == File
    ensures forall e :: e in trace ==> e.args == items
    ensures forall e :: e in trace && e.sink == Screen ==> e.kwargs == kwargs
    ensures forall e :: e in trace && e.sink == File ==> e.kwargs == FileKwargs(kwargs, handle)
    ensures |trace| == 2 ==> Mirrors(trace[0], trace[1])
  {
    (if screen then [Write(Screen, items, kwargs)] else [])
    + (if file then [Write(File, items, FileKwargs(kwargs, handle))] else [])
  }

  /** Two writes mirror each other: same positional arguments, and every
      keyword other than `file` and `flush` passed identically. */
  ghost predicate Mirrors(a: Event, b: Event)
  {
    && a.args == b.args
    && forall k :: k in a.kwargs && k != FileName && k != FlushName ==> k in b.kwargs && b.kwargs[k] == a.kwargs[k]
  }
}
