/** Python values as far as the logger inspects them, keyword-argument maps,
    and the abstract clock used for timestamps. */
module Values {

  /** A Python object that can appear as a positional argument, a keyword
      value or a configuration value. Only the distinctions the logger makes
      are kept: `Other` stands for any object of a type not modelled here and
      carries the truth value Python would give it. */
  datatype Value =
    | PyNone
    | Bool(b: bool)
    | Int(i: int)
    | Str(s: string)
    | Handle(id: nat)
    | Other(id: nat, truth: bool)

  /** Python truthiness, as used by `if v:` */
  predicate Truthy(v: Value)
  {
    match v
    case PyNone => false
    case Bool(b) => b
    case Int(i) => i != 0
    case Str(s) => s != []
    case Handle(_) => true
    case Other(_, t) => t
  }

  /** The keyword arguments of one call. Python keyword names are unique
      within a call, and `builtins.print` does not depend on their order. */
  type Kwargs = map<string, Value>

  datatype Option<+T> = None | Some(value: T)

  /** One reading of `datetime.datetime.now()`; its structure is not used. */
  datatype Moment = Moment(ticks: int)

  /** `moment.strftime(format)`: the clock library's formatting, left
      uninterpreted by taking it as a parameter. */
  type Strftime = (Moment, Value) -> string
}
