/** Python values as the dashboard sees them: the decoded JSON that a
    telemetry reply carries, the numbers a snapshot holds, and the two
    conversions `float()` and `int()` that turn one into the other. */
module PyValues {

  datatype Option<T> = None | Some(value: T)

  /** The outcome of a Python expression: a value, or an exception. */
  datatype Result<T, E> = Ok(value: T) | Err(error: E)

  /** The exceptions `float()` and `int()` raise on a value they refuse. */
  datatype PyError = TypeError | ValueError

  /** A decoded JSON value. The contents of an array or an object play no part
      in a numeric conversion (both are refused), so they are not kept. */
  datatype Json =
    | JNull
    | JBool(b: bool)
    | JInt(i: int)
    | JFloat(r: real)
    | JStr(s: string)
    | JArray
    | JObject

  /** A number held by a snapshot: a Python `int` or a Python `float`. */
  datatype Number = IntNum(i: int) | RealNum(r: real)

  /** The numeric value of a number, as Python compares it with an `int`. */
  function Value(n: Number): (v: real)
    ensures n.IntNum? ==> v == n.i as real && v.Floor == n.i
    ensures n.RealNum? ==> v == n.r
  {
    match n
    case IntNum(i) => i as real
    case RealNum(r) => r
  }

  /** How `float()` and `int()` read text. Python's grammar for numeric
      literals in text (signs, exponents, surrounding blanks, underscores) is
      not modelled: each is a partial function, `None` meaning that the text
      is refused with a ValueError. */
  datatype TextParsers = TextParsers(toReal: string -> Option<real>, toInt: string -> Option<int>)

  /** Python's `float(v)` on a decoded JSON value. */
  function ToFloat(v: Json, text: TextParsers): (r: Result<real, PyError>)
    ensures v.JInt? ==> r == Ok(v.i as real)
    ensures v.JFloat? ==> r == Ok(v.r)
    ensures v.JBool? ==> r == Ok(if v.b then 1.0 else 0.0)
    ensures v.JStr? ==> (r.Ok? <==> text.toReal(v.s).Some?)
    ensures v.JStr? && r.Ok? ==> text.toReal(v.s) == Some(r.value)
    ensures r.Err? ==> (r.error == ValueError <==> v.JStr?)
    ensures (v.JNull? || v.JArray? || v.JObject?) ==> r == Err(TypeError)
  {
    match v
    case JNull => Err(TypeError)
    case JBool(b) => Ok(if b then 1.0 else 0.0)
    case JInt(i) => Ok(i as real)
    case JFloat(x) => Ok(x)
    case JStr(s) =>
      (match text.toReal(s)
       case Some(x) => Ok(x)
       case None => Err(ValueError))
    case JArray => Err(TypeError)
    case JObject => Err(TypeError)
  }

  /** Python's `int(x)` on a float: truncation toward zero. */
  function Truncate(x: real): (i: int)
    ensures 0.0 <= x ==> i as real <= x < i as real + 1.0
    ensures x < 0.0 ==> i as real - 1.0 < x <= i as real
    ensures 0.0 <= x ==> 0 <= i
    ensures x <= 0.0 ==> i <= 0
  {
    if 0.0 <= x then x.Floor else -((-x).Floor)
  }

  /** Python's `int(v)` on a decoded JSON value. */
  function ToInt(v: Json, text: TextParsers): (r: Result<int, PyError>)
    ensures v.JInt? ==> r == Ok(v.i)
    ensures v.JFloat? ==> r == Ok(Truncate(v.r))
    ensures v.JBool? ==> r == Ok(if v.b then 1 else 0)
    ensures v.JStr? ==> (r.Ok? <==> text.toInt(v.s).Some?)
    ensures v.JStr? && r.Ok? ==> text.toInt(v.s) == Some(r.value)
    ensures r.Err? ==> (r.error == ValueError <==> v.JStr?)
    ensures (v.JNull? || v.JArray? || v.JObject?) ==> r == Err(TypeError)
  {
    match v
    case JNull => Err(TypeError)
    case JBool(b) => Ok(if b then 1 else 0)
    case JInt(i) => Ok(i)
    case JFloat(x) => Ok(Truncate(x))
    case JStr(s) =>
      (match text.toInt(s)
       case Some(i) => Ok(i)
       case None => Err(ValueError))
    case JArray => Err(TypeError)
    case JObject => Err(TypeError)
  }
}
