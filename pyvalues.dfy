/**
 * Values as the gateway's Python code sees them after `request.get_json()`:
 * JSON decoded into None, bool, int, float, str, list and dict.  Floating-point
 * numbers are only passed along, never computed with, so a float is kept as the
 * 64-bit pattern of its IEEE-754 double.
 */
module PyValues {
  import opened Wrappers

  /** An IEEE-754 binary64 number, kept as its bit pattern. */
  datatype Double = Double(bits: bv64)

  const PointSeven := Double(0x3FE6_6666_6666_6666)   // 0.7
  const OnePointZero := Double(0x3FF0_0000_0000_0000) // 1.0
  const ZeroPointZero := Double(0)                    // 0.0

  /** Both +0.0 and -0.0 are false in a boolean context. */
  predicate IsZero(d: Double) {
    d.bits == 0 || d.bits == 0x8000_0000_0000_0000
  }

  datatype Value =
    | Null
    | Bool(b: bool)
    | Int(i: int)
    | Float(f: Double)
    | Str(s: string)
    | List(items: seq<Value>)
    | Dict(entries: map<string, Value>)

  predicate StartsWith(s: string, prefix: string) {
    |prefix| <= |s| && s[..|prefix|] == prefix
  }

  /** Python truthiness: None, False, 0, 0.0, '', [] and {} are false. */
  predicate Truthy(v: Value) {
    match v
    case Null => false
    case Bool(b) => b
    case Int(i) => i != 0
    case Float(f) => !IsZero(f)
    case Str(s) => s != ""
    case List(items) => items != []
    case Dict(entries) => entries != map[]
  }

  /** The name `type(v).__name__` gives, as it appears in TypeError messages. */
  function TypeName(v: Value): string {
    match v
    case Null => "NoneType"
    case Bool(_) => "bool"
    case Int(_) => "int"
    case Float(_) => "float"
    case Str(_) => "str"
    case List(_) => "list"
    case Dict(_) => "dict"
  }

  /**
   * The Python builtins the model does not define itself: parsing of numeric
   * strings, int-to-float rounding, float-to-int truncation and str() of floats,
   * lists and dicts.  Each returns the value or the message of the exception raised.
   */
  datatype Builtins = Builtins(
    parseFloat: string -> Result<Double, string>,
    intToFloat: int -> Result<Double, string>,
    parseInt: string -> Result<int, string>,
    truncate: Double -> Result<int, string>,
    display: Value -> string)

  function DigitChar(d: nat): char
    requires d < 10
  {
    "0123456789"[d]
  }

  /** The number a string of decimal digits denotes, most significant first. */
  function DigitsValue(s: string): nat
    requires forall k :: 0 <= k < |s| ==> '0' <= s[k] <= '9'
  {
    if s == [] then 0 else DigitsValue(s[..|s| - 1]) * 10 + (s[|s| - 1] as int - '0' as int)
  }

  /**
   * Decimal digits of a natural number, most significant first: they read
   * back as `n`, and only zero itself starts with a zero.
   */
  function NatDigits(n: nat): (r: string)
    ensures |r| > 0
    ensures forall k :: 0 <= k < |r| ==> '0' <= r[k] <= '9'
    ensures DigitsValue(r) == n
    ensures r[0] == '0' ==> n == 0
    decreases n
  {
    if n < 10 then [DigitChar(n)] else NatDigits(n / 10) + [DigitChar(n % 10)]
  }

  /** `str(i)` for an int. */
  function IntDigits(i: int): string {
    if i < 0 then "-" + NatDigits(-i) else NatDigits(i)
  }

  /** `str(v)`, as used by f-strings. */
  function PyStr(v: Value, py: Builtins): string {
    match v
    case Null => "None"
    case Bool(b) => if b then "True" else "False"
    case Int(i) => IntDigits(i)
    case Str(s) => s
    case _ => py.display(v)
  }

  const FloatArgumentError := "float() argument must be a string or a real number, not '"
  const IntArgumentError := "int() argument must be a string, a bytes-like object or a real number, not '"

  /** The TypeError message for a conversion refused because of the argument's type. */
  function ConversionError(prefix: string, v: Value): string {
    prefix + TypeName(v) + "'"
  }

  /** `float(v)`: numbers and numeric strings convert; None, lists and dicts raise TypeError. */
  function FloatOf(v: Value, py: Builtins): Result<Double, string> {
    match v
    case Bool(b) => Success(if b then OnePointZero else ZeroPointZero)
    case Int(i) => py.intToFloat(i)
    case Float(f) => Success(f)
    case Str(s) => py.parseFloat(s)
    case _ => Failure(ConversionError(FloatArgumentError, v))
  }

  /** `int(v)`: ints pass, bools become 0 or 1, floats truncate; None, lists and dicts raise TypeError. */
  function IntOf(v: Value, py: Builtins): Result<int, string> {
    match v
    case Bool(b) => Success(if b then 1 else 0)
    case Int(i) => Success(i)
    case Float(f) => py.truncate(f)
    case Str(s) => py.parseInt(s)
    case _ => Failure(ConversionError(IntArgumentError, v))
  }

  /**
   * Only numeric strings and the number type the conversion does not return
   * need the builtins: `float()` of anything but a str or an int, and `int()`
   * of anything but a str or a float, is the same whatever they do.  Among
   * those values exactly None, lists and dicts are refused, with the
   * TypeError naming their type; a bool converts to `int` as the int it equals.
   */
  lemma ConversionTypeRules(v: Value, py1: Builtins, py2: Builtins)
    ensures !v.Str? && !v.Int? ==> FloatOf(v, py1) == FloatOf(v, py2)
    ensures !v.Str? && !v.Float? ==> IntOf(v, py1) == IntOf(v, py2)
    ensures !v.Str? && !v.Int? ==> (FloatOf(v, py1).Failure? <==> v.Null? || v.List? || v.Dict?)
    ensures !v.Str? && !v.Float? ==> (IntOf(v, py1).Failure? <==> v.Null? || v.List? || v.Dict?)
    ensures FloatOf(v, py1).Failure? && !v.Str? && !v.Int? ==>
              StartsWith(FloatOf(v, py1).error, FloatArgumentError)
              && FloatOf(v, py1).error[|FloatArgumentError|..] == TypeName(v) + "'"
    ensures IntOf(v, py1).Failure? && !v.Str? && !v.Float? ==>
              StartsWith(IntOf(v, py1).error, IntArgumentError)
              && IntOf(v, py1).error[|IntArgumentError|..] == TypeName(v) + "'"
    ensures v.Bool? ==> IntOf(v, py1) == IntOf(Int(if v.b then 1 else 0), py2)
    ensures v.Float? ==> FloatOf(v, py1) == Success(v.f)
  {
    if !v.Str? && !v.Int? && FloatOf(v, py1).Failure? {
      assert FloatOf(v, py1).error == FloatArgumentError + (TypeName(v) + "'");
    }
    if !v.Str? && !v.Float? && IntOf(v, py1).Failure? {
      assert IntOf(v, py1).error == IntArgumentError + (TypeName(v) + "'");
    }
  }
}
