/** The parts of Go's `strconv` that the coercion layer calls: base-10 integers and booleans. */
module Strconv {
  import opened Wrappers

  /** The bit sizes the library parses integers at. */
  type BitSize = b: nat | b == 32 || b == 64 witness 64

  /** 2^(bitSize-1): the magnitude bound of a signed integer of that width. */
  function Cutoff(bitSize: BitSize): int {
    if bitSize == 32 then 0x8000_0000 else 0x8000_0000_0000_0000
  }

  predicate IsDigit(c: char) {
    '0' <= c <= '9'
  }

  /** A non-empty run of ASCII decimal digits. */
  predicate IsDigits(ds: string) {
    |ds| > 0 && forall i :: 0 <= i < |ds| ==> IsDigit(ds[i])
  }

  /** The number a run of decimal digits denotes (leading zeros allowed). */
  function DigitsValue(ds: string): nat
    requires forall i :: 0 <= i < |ds| ==> IsDigit(ds[i])
  {
    if |ds| == 0 then 0
    else
      assert IsDigit(ds[|ds| - 1]);
      DigitsValue(ds[..|ds| - 1]) * 10 + (ds[|ds| - 1] as int - '0' as int)
  }

  /**
   * `strconv.ParseInt(s, 10, bitSize)`: an optional sign followed by at least one decimal digit,
   * whose value fits in a signed integer of `bitSize` bits. With base 10 neither a base prefix
   * nor `_` separators are accepted.
   */
  function ParseInt(s: string, bitSize: BitSize): (r: Option<int>)
    ensures r.Some? ==> -Cutoff(bitSize) <= r.value < Cutoff(bitSize)
    ensures r.Some? ==> |s| > 0 && (IsDigit(s[0]) || s[0] == '+' || s[0] == '-')
                        && forall i :: 0 < i < |s| ==> IsDigit(s[i])
  {
    if s == [] then None
    else
      var digits := if s[0] == '+' || s[0] == '-' then s[1..] else s;
      if !IsDigits(digits) then None
      else
        assert forall i :: 0 < i < |s| ==> s[i] == (if digits == s then digits[i] else digits[i - 1]);
        var n: int := if s[0] == '-' then -(DigitsValue(digits) as int) else DigitsValue(digits);
        if -Cutoff(bitSize) <= n < Cutoff(bitSize) then Some(n) else None
  }

  function Digit(d: nat): char
    requires d < 10
  {
    ('0' as int + d) as char
  }

  /** The shortest decimal spelling of a natural number. */
  function Decimal(n: nat): string {
    if n < 10 then [Digit(n)] else Decimal(n / 10) + [Digit(n % 10)]
  }

  /** `strconv.FormatInt(n, 10)`. */
  function FormatInt(n: int): string {
    if n < 0 then "-" + Decimal(-n) else Decimal(n)
  }

  lemma {:induction false} DecimalDenotes(n: nat)
    ensures IsDigits(Decimal(n)) && DigitsValue(Decimal(n)) == n
  {
    if n >= 10 {
      DecimalDenotes(n / 10);
      var ds := Decimal(n);
      assert ds[..|ds| - 1] == Decimal(n / 10);
    }
  }

  /** Parsing is the inverse of formatting on every integer of the width. */
  lemma ParseFormatInt(n: int, bitSize: BitSize)
    requires -Cutoff(bitSize) <= n < Cutoff(bitSize)
    ensures ParseInt(FormatInt(n), bitSize) == Some(n)
  {
    var s := FormatInt(n);
    if n < 0 {
      DecimalDenotes(-n);
      assert s == "-" + Decimal(-n);
      assert s[1..] == Decimal(-n);
      assert s[0] == '-';
    } else {
      DecimalDenotes(n);
      assert s == Decimal(n);
      assert IsDigit(s[0]);
    }
  }

  /** A numeral outside the width is rejected, whatever its sign. */
  lemma FormatIntOutOfRange(n: int, bitSize: BitSize)
    requires !(-Cutoff(bitSize) <= n < Cutoff(bitSize))
    ensures ParseInt(FormatInt(n), bitSize) == None
  {
    var s := FormatInt(n);
    if n < 0 {
      DecimalDenotes(-n);
      assert s[1..] == Decimal(-n);
    } else {
      DecimalDenotes(n);
      assert IsDigit(s[0]);
    }
  }

  /** `z` zero digits. */
  function Zeros(z: nat): (r: string)
    ensures |r| == z && forall i :: 0 <= i < z ==> r[i] == '0'
  {
    seq(z, _ => '0')
  }

  /** Leading zeros do not change the number a run of digits denotes. */
  lemma {:induction false} LeadingZerosAddNothing(z: nat, ds: string)
    requires forall i :: 0 <= i < |ds| ==> IsDigit(ds[i])
    ensures forall i :: 0 <= i < |Zeros(z) + ds| ==> IsDigit((Zeros(z) + ds)[i])
    ensures DigitsValue(Zeros(z) + ds) == DigitsValue(ds)
  {
    var s := Zeros(z) + ds;
    if |ds| > 0 {
      LeadingZerosAddNothing(z, ds[..|ds| - 1]);
      assert s[..|s| - 1] == Zeros(z) + ds[..|ds| - 1];
    } else if z > 0 {
      LeadingZerosAddNothing(z - 1, ds);
      assert s[..|s| - 1] == Zeros(z - 1) + ds;
    }
  }

  /** Unsigned text is its digits' value, if that fits the width. */
  lemma ParseUnsigned(ds: string, bitSize: BitSize)
    requires IsDigits(ds)
    ensures ParseInt(ds, bitSize) == if DigitsValue(ds) < Cutoff(bitSize) then Some(DigitsValue(ds) as int) else None
  {
    assert IsDigit(ds[0]);
  }

  /** Signed text is its digits' value, negated after a `-`, if that fits the width. */
  lemma ParseSigned(sign: char, ds: string, bitSize: BitSize)
    requires (sign == '+' || sign == '-') && IsDigits(ds)
    ensures var v := if sign == '-' then -(DigitsValue(ds) as int) else DigitsValue(ds);
      ParseInt([sign] + ds, bitSize) == if -Cutoff(bitSize) <= v < Cutoff(bitSize) then Some(v) else None
  {
    assert ([sign] + ds)[1..] == ds;
  }

  /** Leading zeros leave the value alone. */
  lemma LeadingZeros(n: nat, z: nat, bitSize: BitSize)
    ensures ParseInt(Zeros(z) + Decimal(n), bitSize) == ParseInt(FormatInt(n), bitSize)
  {
    DecimalDenotes(n);
    LeadingZerosAddNothing(z, Decimal(n));
    ParseUnsigned(Zeros(z) + Decimal(n), bitSize);
    ParseUnsigned(Decimal(n), bitSize);
  }

  /** An explicit `+` and leading zeros leave the value alone. */
  lemma PlusSign(n: nat, z: nat, bitSize: BitSize)
    ensures ParseInt("+" + Zeros(z) + Decimal(n), bitSize) == ParseInt(FormatInt(n), bitSize)
  {
    var padded := Zeros(z) + Decimal(n);
    DecimalDenotes(n);
    LeadingZerosAddNothing(z, Decimal(n));
    assert "+" + Zeros(z) + Decimal(n) == ['+'] + padded;
    ParseSigned('+', padded, bitSize);
    ParseUnsigned(Decimal(n), bitSize);
  }

  /** A `-` before leading zeros and digits gives the negated value, as `FormatInt` spells it. */
  lemma MinusSign(n: nat, z: nat, bitSize: BitSize)
    ensures ParseInt("-" + Zeros(z) + Decimal(n), bitSize) == ParseInt(FormatInt(-(n as int)), bitSize)
  {
    var padded := Zeros(z) + Decimal(n);
    DecimalDenotes(n);
    LeadingZerosAddNothing(z, Decimal(n));
    assert "-" + Zeros(z) + Decimal(n) == ['-'] + padded;
    ParseSigned('-', padded, bitSize);
    if n == 0 {
      ParseUnsigned(Decimal(n), bitSize);
    } else {
      assert FormatInt(-(n as int)) == ['-'] + Decimal(n);
      ParseSigned('-', Decimal(n), bitSize);
    }
  }

  /**
   * `strconv.ParseBool`: "1", "t", "T", "TRUE", "true" and "True" are true; "0", "f", "F",
   * "FALSE", "false" and "False" are false; any other text is an error.
   */
  function ParseBool(s: string): (r: Option<bool>)
    ensures r.Some? ==> |s| > 0 && (r.value <==> s[0] in "1tT")
    ensures r.Some? <==> s in {"1", "t", "T", "TRUE", "true", "True", "0", "f", "F", "FALSE", "false", "False"}
  {
    if s in {"1", "t", "T", "TRUE", "true", "True"} then Some(true)
    else if s in {"0", "f", "F", "FALSE", "false", "False"} then Some(false)
    else None
  }

  /** `strconv.FormatBool`. */
  function FormatBool(b: bool): string {
    if b then "true" else "false"
  }

  /** Parsing is the inverse of formatting on booleans. */
  lemma ParseFormatBool(b: bool)
    ensures ParseBool(FormatBool(b)) == Some(b)
  {
  }
}
