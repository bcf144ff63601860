/**
 * The Python values the run driver inspects, and the three operations on them
 * its control flow depends on: truthiness (`if not x`, `if x`), hashability
 * (a dictionary key must be hashable), and the `in` operator used on the
 * token response.
 *
 * Values returned by the HTTP helpers are decoded JSON, so they are modelled
 * as a JSON tree; numbers are integers only.
 */
module PyValues {

  /** A decoded JSON value as Python holds it (None, bool, int, str, list, dict). */
  datatype Json =
    | JNull
    | JBool(b: bool)
    | JNum(n: int)
    | JStr(s: string)
    | JArr(items: seq<Json>)
    | JObj(fields: map<string, Json>)

  /** The outcome of a call into a collaborator: it raised, or it returned a value. */
  datatype Call<+T> = Raised | Returned(value: T)

  /** Python's truth value: None, False, 0 and empty containers are false. */
  predicate Truthy(v: Json) {
    match v
    case JNull => false
    case JBool(b) => b
    case JNum(n) => n != 0
    case JStr(s) => |s| > 0
    case JArr(items) => |items| > 0
    case JObj(fields) => |fields| > 0
  }

  /** Lists and dicts cannot be dictionary keys: storing under one raises TypeError. */
  predicate Hashable(v: Json) {
    !v.JArr? && !v.JObj?
  }

  /** `pat` occurs as a contiguous run of `s`. */
  predicate IsSubstring(pat: string, s: string)
    decreases |s|
  {
    |pat| <= |s| && (s[..|pat|] == pat || IsSubstring(pat, s[1..]))
  }

  /**
   * Python's `key in container` for a string key: a key test on a dict,
   * an element test on a list, a substring test on a str, and a TypeError
   * on anything that is not a container.
   */
  function Contains(container: Json, key: string): (r: Call<bool>)
    ensures r.Raised? <==> container.JNull? || container.JBool? || container.JNum?
  {
    match container
    case JObj(fields) => Returned(key in fields)
    case JArr(items) => Returned(JStr(key) in items)
    case JStr(s) => Returned(IsSubstring(key, s))
    case _ => Raised
  }
}
