/** The class counter `_ninst` that keeps `LogPrint` to one live instance,
    with construction and destruction as explicit steps. Both versions of the
    class guard themselves the same way. */
module InstanceGuard {

  /** `if LogPrint._ninst:` in `__new__`: any non-zero count refuses. */
  predicate Occupied(ninst: int)
  {
    ninst != 0
  }

  /** A constructor call; a constructor call whose `__init__` raises before
      its first statement (an argument `__init__` does not take, although
      `__new__` takes any); or the collection (`__del__`) of a live instance. */
  datatype Op = Construct | AbortedInit | Collect

  /** The counter together with the number of instances actually alive. */
  datatype State = State(ninst: int, live: nat)

  const Init := State(0, 0)

  /** One step, as written. A refused construction returns `None` without
      running `__init__`, so nothing changes; an accepted one registers the
      new instance. Collection runs `__del__`, which unregisters; with no live
      instance there is nothing to collect. When `__init__` raises, the object
      `__new__` made is discarded unregistered, yet its `__del__` still
      decrements the counter. */
  function Step(s: State, op: Op): State
  {
    match op
    case Construct =>
      if Occupied(s.ninst) then s else State(s.ninst + 1, s.live + 1)
    case AbortedInit =>
      if Occupied(s.ninst) then s else State(s.ninst - 1, s.live)
    case Collect =>
      if s.live == 0 then s else State(s.ninst - 1, s.live - 1)
  }

  function Run(s: State, ops: seq<Op>): State
    decreases |ops|
  {
    if ops == [] then s else Run(Step(s, ops[0]), ops[1..])
  }

  /** One step with `__del__` unregistering only an object that registered:
      an aborted construction changes nothing. */
  function GuardedStep(s: State, op: Op): State
  {
    if op.AbortedInit? then s else Step(s, op)
  }

  function GuardedRun(s: State, ops: seq<Op>): State
    decreases |ops|
  {
    if ops == [] then s else GuardedRun(GuardedStep(s, ops[0]), ops[1..])
  }

  /** The counter counts the live instances, and there is at most one. */
  ghost predicate SingleInstance(s: State)
  {
    s.ninst == s.live && s.live <= 1
  }

  /** The state an aborted construction leaves behind: counter -1, no
      instance alive. */
  const LockedOut := State(-1, 0)

  /** As written, the counter counts the live instances (at most one) until
      an aborted construction drives it to -1 with nothing alive. */
  ghost predicate AtMostOneLive(s: State)
  {
    SingleInstance(s) || s == LockedOut
  }

  /** As written, every sequence of constructions, aborted constructions and
      collections keeps at most one instance alive; the counter equals the
      number of live instances unless it has been driven to -1. */
  lemma {:induction false} RunKeepsAtMostOneLive(s: State, ops: seq<Op>)
    requires AtMostOneLive(s)
    ensures AtMostOneLive(Run(s, ops))
    decreases |ops|
  {
    if ops != [] {
      RunKeepsAtMostOneLive(Step(s, ops[0]), ops[1..]);
    }
  }

  /** Once locked out, nothing changes any more: every construction is
      refused for the rest of the process. */
  lemma {:induction false} LockedOutIsFinal(ops: seq<Op>)
    ensures Run(LockedOut, ops) == LockedOut
    decreases |ops|
  {
    if ops != [] {
      LockedOutIsFinal(ops[1..]);
    }
  }

  /** As written, one aborted construction from the initial state drives the
      counter to -1, after which no construction ever yields an instance. */
  lemma AbortedInitLocksOut(ops: seq<Op>)
    ensures Run(Init, [AbortedInit] + ops) == LockedOut
    ensures Run(Init, [AbortedInit] + ops).live == 0
  {
    assert ([AbortedInit] + ops)[1..] == ops;
    LockedOutIsFinal(ops);
  }

  /** With `__del__` unregistering only registered objects, every sequence of
      steps keeps the counter equal to the number of live instances, at most
      one. */
  lemma {:induction false} GuardedRunKeepsSingleInstance(s: State, ops: seq<Op>)
    requires SingleInstance(s)
    ensures SingleInstance(GuardedRun(s, ops))
    decreases |ops|
  {
    if ops != [] {
      GuardedRunKeepsSingleInstance(GuardedStep(s, ops[0]), ops[1..]);
    }
  }

  /** With the corrected `__del__`, an aborted construction does not stop the
      next construction from succeeding. */
  lemma GuardedAbortedInitHarmless(s: State)
    requires SingleInstance(s) && s.live == 0
    ensures GuardedRun(s, [AbortedInit, Construct]) == State(1, 1)
  {
  }

  /** While an instance is alive, any number of further constructions is
      refused and leaves the state exactly as it was. */
  lemma {:induction false} ConstructionsRefusedWhileLive(s: State, n: nat)
    requires SingleInstance(s) && s.live == 1
    ensures Run(s, seq(n, _ => Construct)) == s
    decreases n
  {
    if n > 0 {
      var ops := seq(n, _ => Construct);
      assert ops[1..] == seq(n - 1, _ => Construct);
      ConstructionsRefusedWhileLive(s, n - 1);
    }
  }

  /** Once the live instance is collected, construction succeeds again. */
  lemma ConstructAfterCollect(s: State)
    requires SingleInstance(s) && s.live == 1
    ensures Run(s, [Collect, Construct]) == s
    ensures Step(Step(s, Collect), Construct).live == 1
  {
  }
}
