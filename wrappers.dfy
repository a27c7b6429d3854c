/** Small result types shared by the whole model. */
module Wrappers {

  /** A value that may be missing: Python's `None` or an absent dictionary key. */
  datatype Option<+T> = None | Some(value: T) {
    function GetOr(default: T): T {
      match this
      case Some(v) => v
      case None => default
    }
  }

  /** What calling an external capability (a tool, a service) yields: a value, or an exception
      whose `str(e)` is `error`. */
  datatype Outcome<+T> = Ok(value: T) | Crash(error: string)

  /** Python's `str(x)` for an optional string: the string itself, or "None". */
  function ShowOption(o: Option<string>): string {
    match o
    case Some(s) => s
    case None => "None"
  }

  /** Python truthiness of an optional string: present and non-empty. */
  predicate TruthyStr(o: Option<string>) {
    o.Some? && o.value != ""
  }

  /** Python truthiness of an optional boolean. */
  predicate TruthyBool(o: Option<bool>) {
    o == Some(true)
  }

  /** `d.get(k)` */
  function Get<K, V>(d: map<K, V>, k: K): Option<V> {
    if k in d then Some(d[k]) else None
  }
}
