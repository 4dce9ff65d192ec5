/** How the two versions of the class relate to each other and to the
    instance-counter state machine. */
module Versions {
  import opened Values
  import opened Configuration
  import opened InstanceGuard
  import LogPrint
  import LogPrintLegacy

  /** The three modes of version 0.1.0 as the `screen`/`file` options of
      version 1.1.0. */
  function ModeOptions(mode: Value): (r: Kwargs)
    requires mode in {LogPrintLegacy.Both, LogPrintLegacy.ScreenOnly, LogPrintLegacy.FileOnly}
    ensures r.Keys == {ScreenKey, FileKey}
    ensures Truthy(r[ScreenKey]) <==> mode != LogPrintLegacy.FileOnly
    ensures Truthy(r[FileKey]) <==> mode != LogPrintLegacy.ScreenOnly
  {
    map[ScreenKey := Bool(mode != LogPrintLegacy.FileOnly), FileKey := Bool(mode != LogPrintLegacy.ScreenOnly)]
  }

  /** Version 1.1.0 does everything version 0.1.0 did: a fresh instance
      given the `screen`/`file` options matching a mode writes exactly what
      the older class writes for that mode, provided the call's other keyword
      arguments name no option. */
  lemma LaterVersionCoversModes(handle: Value, scriptName: string, fileName: string, fwMode: string,
                                strftime: Strftime, now: Moment, args: seq<Value>, kw: Kwargs, mode: Value)
    requires mode in {LogPrintLegacy.Both, LogPrintLegacy.ScreenOnly, LogPrintLegacy.FileOnly}
    requires kw.Keys !! ConfigKeys && LogPrintLegacy.ModeName !in kw
    ensures LogPrintLegacy.Print(LogPrintLegacy.Logger(handle, fwMode, fileName), args, kw[LogPrintLegacy.ModeName := mode])
         == LogPrint.Print(LogPrint.Logger(scriptName, fileName, handle, Default()), strftime, now, args, kw + ModeOptions(mode))
  {
    var callKw := kw[LogPrintLegacy.ModeName := mode];
    assert callKw - {LogPrintLegacy.ModeName} == kw;
    var split := SetTempConfig(Default(), kw + ModeOptions(mode));
    assert split.1 == kw;
  }

  /** Both constructors move the class counter exactly as a construction
      step of the guard does, and yield an instance exactly when the guard
      admits one. */
  lemma ConstructorsFollowGuard(s: State, scriptName: string, fileName: string, fwMode: string,
                                handle: Value, printHeader: Value, strftime: Strftime, now: Moment)
    ensures var t := Step(s, Construct);
            var later := LogPrint.New(s.ninst, scriptName, fileName, handle, printHeader, strftime, now);
            var earlier := LogPrintLegacy.New(s.ninst, fileName, fwMode, handle);
            && later.ninst == t.ninst && earlier.ninst == t.ninst
            && (later.instance.Some? <==> t.live == s.live + 1)
            && (earlier.instance.Some? <==> t.live == s.live + 1)
  {
  }
}
