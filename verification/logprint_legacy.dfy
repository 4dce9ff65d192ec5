/** `LogPrint` version 0.1.0: each `print` call picks its sinks with a
    `mode` keyword instead of a stored configuration. */
module LogPrintLegacy {
  import opened Values
  import opened Trace
  import opened InstanceGuard

  /** One instance. `fileHandle` is what `open` returned, or `PyNone` when
      opening failed. */
  datatype Logger = Logger(fileHandle: Value, fwMode: string, fileName: string)

  const RefusalMessage := "Error: only one instance of LogPrint allowed"
  const ModeName := "mode"
  const Both := Str("both")
  const ScreenOnly := Str("screen")
  const FileOnly := Str("file")

  /** `print(*args, mode='both', **kwargs)` where `callKw` holds every keyword
      the caller passed, `mode` among them or not. */
  function Print(lg: Logger, args: seq<Value>, callKw: Kwargs): (trace: seq<Event>)
    ensures var mode := if ModeName in callKw then callKw[ModeName] else Both;
            var screen := mode == Both || mode == ScreenOnly;
            var file := mode == Both || mode == FileOnly;
            // 'both' writes screen then file, 'screen' and 'file' one each,
            // any other mode nothing at all
            && |trace| == (if screen then 1 else 0) + (if file then 1 else 0)
            && (screen <==> |trace| > 0 && trace[0].sink == Screen)
            && (file <==> |trace| > 0 && trace[|trace| - 1].sink == File)
    // both writes get the positional arguments untouched
    ensures forall e :: e in trace ==> e.args == args
    // `mode` is consumed here and never reaches the builtin `print`
    ensures forall e :: e in trace ==> ModeName !in e.kwargs
    ensures forall e :: e in trace && e.sink == Screen ==> Forwards(e.kwargs, callKw, {ModeName})
    ensures forall e :: e in trace && e.sink == File ==> ForwardsToFile(e.kwargs, callKw, {ModeName}, lg.fileHandle)
    ensures |trace| == 2 ==> Mirrors(trace[0], trace[1])
  {
    var mode := if ModeName in callKw then callKw[ModeName] else Both;
    var kwargs := callKw - {ModeName};
    ForwardsThenFile(kwargs, callKw, {ModeName}, lg.fileHandle);
    Dispatch(mode == Both || mode == ScreenOnly, mode == Both || mode == FileOnly, args, kwargs, lg.fileHandle)
  }

  /** `LogPrint(file_name, fw_mode)` with class counter `ninst`; `handle` is
      what opening the file produced. */
  function New(ninst: int, fileName: string, fwMode: string, handle: Value): (r: Construction<Logger>)
    ensures Occupied(ninst) <==> r.instance.None?
    ensures Occupied(ninst) ==>
              r.ninst == ninst && r.trace == [Write(Screen, [Str(RefusalMessage)], map[])]
    ensures !Occupied(ninst) ==>
              r.ninst == ninst + 1 && r.trace == [] && r.instance.value == Logger(handle, fwMode, fileName)
  {
    if Occupied(ninst) then
      Construction(ninst, None, [Write(Screen, [Str(RefusalMessage)], map[])])
    else
      Construction(ninst + 1, Some(Logger(handle, fwMode, fileName)), [])
  }
}
