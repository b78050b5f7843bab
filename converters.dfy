/**
 * The coercion layer: type-directed conversion of an untyped value to int64, int32, float64,
 * float32 or bool. Every failure carries a fixed message naming a type, never the parser's error.
 */
module Converters {
  import opened Wrappers
  import opened Reflect
  import opened Strconv
  import opened Errors

  /**
   * `strconv.ParseFloat(s, bitSize)`, which the model does not define: every operation that
   * parses floating-point text takes it as a parameter. Floats are modelled as reals.
   */
  type FloatParser = (string, BitSize) -> Option<real>

  const MinInt32: int := -0x8000_0000
  const MaxInt32: int := 0x7fff_ffff
  const MinInt64: int := -0x8000_0000_0000_0000
  const MaxInt64: int := 0x7fff_ffff_ffff_ffff

  /** Go's `int32(x)` for an integer `x`: the low 32 bits, read as two's complement. */
  function ToInt32(x: int): (r: int)
    ensures MinInt32 <= r <= MaxInt32
    ensures (x - r) % 0x1_0000_0000 == 0
    ensures MinInt32 <= x <= MaxInt32 ==> r == x
  {
    (x + 0x8000_0000) % 0x1_0000_0000 - 0x8000_0000
  }

  /** The signed integer kinds the integer conversion accepts. */
  predicate IsSigned(k: IntKind) {
    k in {Int, Int8, Int16, Int32, Int64}
  }

  /**
   * `converToInt(v, bitSize)`: text is parsed as a base-10 integer of `bitSize` bits; a signed
   * integer of any width keeps its value; anything else fails. Both failures report the type
   * "boolean", as the source does.
   */
  function ConvertToInt(v: Value, bitSize: BitSize): (r: Result<int, Error>)
    ensures r.Ok? && v.StrV? ==> ParseInt(v.s, bitSize) == Some(r.value)
    ensures v.IntV? && IsSigned(v.ik) ==> r == Ok(v.i)
    ensures r.Ok? ==> v.StrV? || (v.IntV? && IsSigned(v.ik))
    ensures r.Err? ==> r.error == NotOfType("boolean")
  {
    match v
    case StrV(s) =>
      (match ParseInt(s, bitSize)
       case Some(n) => Ok(n)
       case None => Err(NotOfType("boolean")))
    case IntV(k, i) => if IsSigned(k) then Ok(i) else Err(NotOfType("boolean"))
    case _ => Err(NotOfType("boolean"))
  }

  /** `converToInt64`: every accepted source lands in the int64 range, given a well-typed integer. */
  function ConvertToInt64(v: Value): (r: Result<int, Error>)
    ensures r.Ok? && (v.IntV? ==> InRange(v.ik, v.i)) ==> MinInt64 <= r.value <= MaxInt64
    ensures r.Ok? <==> ConvertToInt(v, 64).Ok?
  {
    ConvertToInt(v, 64)
  }

  /**
   * `converToInt32`: text is range-checked at 32 bits, while an integer source is truncated to
   * its low 32 bits, so it wraps around modulo 2^32.
   */
  function ConvertToInt32(v: Value): (r: Result<int, Error>)
    ensures r.Ok? ==> MinInt32 <= r.value <= MaxInt32
    ensures v.StrV? ==> r == (match ParseInt(v.s, 32) case Some(n) => Ok(n) case None => Err(NotOfType("boolean")))
    ensures v.IntV? && IsSigned(v.ik) ==> r.Ok? && (v.i - r.value) % 0x1_0000_0000 == 0
    ensures r.Err? <==> ConvertToInt(v, 32).Err?
    ensures r.Err? ==> r.error == NotOfType("boolean")
  {
    match ConvertToInt(v, 32)
    case Err(e) => Err(e)
    case Ok(n) => Ok(ToInt32(n))
  }

  /** The type name a float conversion failure reports. */
  function FloatTypeName(bitSize: BitSize): string {
    if bitSize == 64 then "double" else "float"
  }

  /**
   * `converToFloat(v, bitSize)`: text goes through ParseFloat; a float32 or float64 keeps its
   * value; integers and every other source fail.
   */
  function ConvertToFloat(parseFloat: FloatParser, v: Value, bitSize: BitSize): (r: Result<real, Error>)
    ensures v.FloatV? ==> r == Ok(v.r)
    ensures v.StrV? ==> (r.Ok? <==> parseFloat(v.s, bitSize).Some?)
    ensures r.Ok? && v.StrV? ==> r.value == parseFloat(v.s, bitSize).value
    ensures !v.StrV? && !v.FloatV? ==> r == Err(NotOfType(FloatTypeName(bitSize)))
    ensures r.Err? ==> r.error == NotOfType(FloatTypeName(bitSize))
  {
    match v
    case StrV(s) =>
      (match parseFloat(s, bitSize)
       case Some(x) => Ok(x)
       case None => Err(NotOfType(FloatTypeName(bitSize))))
    case FloatV(_, x) => Ok(x)
    case _ => Err(NotOfType(FloatTypeName(bitSize)))
  }

  /** `converToFloat64`. */
  function ConvertToFloat64(parseFloat: FloatParser, v: Value): (r: Result<real, Error>)
    ensures v.IntV? ==> r == Err(NotOfType("double"))
  {
    ConvertToFloat(parseFloat, v, 64)
  }

  /** `converToFloat32` (the narrowing to float32 precision is not modelled). */
  function ConvertToFloat32(parseFloat: FloatParser, v: Value): (r: Result<real, Error>)
    ensures v.IntV? ==> r == Err(NotOfType("float"))
  {
    ConvertToFloat(parseFloat, v, 32)
  }

  /** `convertToBool`: a bool passes, text goes through ParseBool, anything else fails. */
  function ConvertToBool(v: Value): (r: Result<bool, Error>)
    ensures v.BoolV? ==> r == Ok(v.b)
    ensures v.StrV? ==> (r.Ok? <==> ParseBool(v.s).Some?)
    ensures r.Ok? && v.StrV? ==> Some(r.value) == ParseBool(v.s)
    ensures r.Err? ==> r.error == NotOfType("boolean") && !v.BoolV?
    ensures !v.StrV? && !v.BoolV? ==> r == Err(NotOfType("boolean"))
  {
    match v
    case StrV(s) =>
      (match ParseBool(s)
       case Some(b) => Ok(b)
       case None => Err(NotOfType("boolean")))
    case BoolV(b) => Ok(b)
    case _ => Err(NotOfType("boolean"))
  }

  /** Text that parses to `n` converts exactly as the number `n` does, at either width. */
  lemma TextAgreesWithNumber(s: string, n: int, bitSize: BitSize)
    requires ParseInt(s, bitSize) == Some(n)
    ensures ConvertToInt(StrV(s), bitSize) == ConvertToInt(IntV(Int64, n), bitSize) == Ok(n)
    ensures bitSize == 32 ==> ConvertToInt32(StrV(s)) == ConvertToInt32(IntV(Int64, n)) == Ok(n)
  {
  }

  /** Text outside the int32 range is rejected, but the same number as an int64 wraps around. */
  lemma Int32TextIsCheckedNumberWraps()
    ensures ConvertToInt32(StrV(FormatInt(0x8000_0000))).Err?
    ensures ConvertToInt32(IntV(Int64, 0x8000_0000)) == Ok(-0x8000_0000)
  {
    var s := FormatInt(0x8000_0000);
    DecimalDenotes(0x8000_0000);
    assert IsDigit(s[0]);
  }
}
