/**
 * The dynamically typed values a TileCutter project file is made of, and the
 * outcome of running a Python accessor on one of them.
 */
module Values {

  /** A property value as the loader sees it: a Python int, bool, str, list or dict. */
  datatype Value =
    | Int(i: int)
    | Bool(b: bool)
    | Str(s: string)
    | List(items: seq<Value>)
    | Dict(entries: map<string, Value>)

  /** What an accessor called with `validate=True` answers: True, False, or an exception escapes. */
  datatype Verdict = Accept | Reject | Raise

  /** A computation that either yields a value or raises a Python exception. */
  datatype Outcome<+T> = Ok(value: T) | Raised

  /**
   * The integer a value stands for under Python's `==`: a bool is an int
   * subclass, so `True == 1` and `False == 0`; other kinds equal no int.
   */
  function AsInt(v: Value): Option<int> {
    match v
    case Int(i) => Some(i)
    case Bool(b) => Some(if b then 1 else 0)
    case _ => None
  }

  datatype Option<+T> = None | Some(value: T)

  /** Python's `value in [True, 1]` or `value in [False, 0]`. */
  predicate IsFlag(v: Value) {
    AsInt(v) == Some(0) || AsInt(v) == Some(1)
  }

  /** Python's `value in choices` for a list of ints. */
  predicate InChoices(v: Value, choices: set<int>) {
    AsInt(v).Some? && AsInt(v).value in choices
  }

  /** `len(value)` is defined: strings, lists and dicts are sized, numbers are not. */
  predicate Sized(v: Value) {
    v.Str? || v.List? || v.Dict?
  }
}
