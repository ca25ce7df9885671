/**
 * The dynamically typed Python values that raw records (JSON dictionaries)
 * carry, with the builtins the record shaping applies to them: `dict.get`,
 * truthiness, `float()` and `datetime.fromisoformat`.
 */
module Py {
  import opened Wrappers
  import Text

  /**
   * A `datetime`: whole seconds on the wall clock since 1970-01-01 00:00,
   * and whether it carries a UTC offset (is "offset-aware").
   */
  datatype Timestamp = Timestamp(seconds: int, aware: bool)

  datatype Value =
    | VNone
    | VStr(s: string)
    | VNum(x: real)
    | VBool(b: bool)
    | VDate(t: Timestamp)
    | VList(items: seq<Value>)
    | VDict(fields: map<string, Value>)
    | VOther

  /** A JSON object / Python dictionary. */
  type Record = map<string, Value>

  /**
   * The string parsers of the runtime, which the model does not re-implement:
   * `float(s)` and `datetime.fromisoformat(s)`; `None` stands for the
   * `ValueError` they raise.
   */
  datatype Parsers = Parsers(float: string -> Option<real>, iso: string -> Option<Timestamp>)

  /** `d.get(key, default)`. */
  function Get(d: Record, key: string, default: Value): (v: Value)
    ensures key !in d ==> v == default
  {
    if key in d then d[key] else default
  }

  /** Python truthiness (`if v:`); objects of unknown type count as true. */
  predicate Truthy(v: Value) {
    match v
    case VNone => false
    case VStr(s) => s != ""
    case VNum(x) => x != 0.0
    case VBool(b) => b
    case VDate(_) => true
    case VList(items) => items != []
    case VDict(fields) => fields != map[]
    case VOther => true
  }

  /** `float(v)`; `None` stands for the `ValueError`/`TypeError` it raises. */
  function ToFloat(v: Value, px: Parsers): (r: Option<real>)
    ensures v.VNum? ==> r == Some(v.x)
    ensures !(v.VNum? || v.VStr? || v.VBool?) ==> r == None
  {
    match v
    case VNum(x) => Some(x)
    case VStr(s) => px.float(s)
    case VBool(b) => Some(if b then 1.0 else 0.0)
    case _ => None
  }

  /** `datetime.fromisoformat(s.replace('Z', '+00:00'))`. */
  function ParseIsoUtc(s: string, px: Parsers): Option<Timestamp> {
    px.iso(Text.ReplaceZ(s))
  }
}
