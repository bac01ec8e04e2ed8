/** Decoded JSON values as Python's `json` module hands them to the bot, and
    Python's truthiness test on them (what `if x:` and `x or y` look at). */
module Json {

  /** `JNum` covers both Python `int` and `float` results; only truthiness is observed. */
  datatype Json =
    | JNull
    | JBool(b: bool)
    | JNum(n: real)
    | JStr(s: string)
    | JArr(elems: seq<Json>)
    | JObj(fields: map<string, Json>)

  /** Python's `bool(x)`: the falsy values are exactly None, False, zero,
      the empty string, the empty list and the empty dict. */
  predicate Truthy(j: Json): (b: bool)
    ensures !b <==> j in {JNull, JBool(false), JNum(0.0), JStr(""), JArr([]), JObj(map[])}
  {
    match j
    case JNull => false
    case JBool(b) => b
    case JNum(n) => n != 0.0
    case JStr(s) => |s| > 0
    case JArr(a) => |a| > 0
    case JObj(m) => |m| > 0
  }

  /** `dict.get(key)`: a missing key reads as None, i.e. JSON null. */
  function Get(m: map<string, Json>, key: string): Json {
    if key in m then m[key] else JNull
  }
}
