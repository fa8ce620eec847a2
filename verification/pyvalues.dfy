/**
 * The Python values a model id can take in the client, and Python's notion
 * of truthiness, which decides how `model_id or <default>` resolves.
 */
module PyValues {

  /**
   * A model id as the caller passes it. `PyNone` is the keyword argument's
   * default; server-side ids are integers, and strings are accepted as well.
   */
  datatype PyVal = PyNone | Int(i: int) | Str(s: string)

  /** Python truthiness: `None`, `0` and `""` are falsy, everything else is truthy. */
  predicate Truthy(v: PyVal)
  {
    match v
    case PyNone => false
    case Int(i) => i != 0
    case Str(s) => |s| > 0
  }
}
