/**
 * The few Python values the bridge handles: configuration option values,
 * and what its wrappers return to their callers.
 */
module Values {
  import opened Wrappers

  datatype Value = PyNone | PyBool(b: bool) | PyInt(i: int) | PyStr(s: string)

  /** Python truthiness, as used by `if options['sound']` and `if not alive`. */
  predicate Truthy(v: Value) {
    match v
    case PyNone => false
    case PyBool(b) => b
    case PyInt(i) => i != 0
    case PyStr(s) => s != ""
  }

  /** `str(x)` of an optional string: Python renders `None` as the text "None". */
  function Str(x: Option<string>): string {
    match x
    case None => "None"
    case Some(s) => s
  }
}
