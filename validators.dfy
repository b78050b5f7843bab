/**
 * Validation of a value against a descriptor: the kind check, the string, numeric and count
 * constraints, and the fail-fast descent into a struct's fields, a map's values and a list's
 * elements. `Check` is the specification; the methods below walk the children with loops, as
 * the source does, and are proved to compute it.
 *
 * The source panics in a few situations (a missing child descriptor, a property count on a
 * struct, `multipleOf` on a float or equal to zero). `Safe` holds exactly when the walk, which
 * stops at the first error, meets none of them; every member here requires it.
 */
module Validators {
  import opened Wrappers
  import opened Reflect
  import opened Errors
  import opened Descriptors
  import opened Utils

  /** Go's `a % b` on integers: truncated division, so the remainder takes the sign of `a`. */
  function GoRem(a: int, b: int): (r: int)
    requires b != 0
    ensures a >= 0 ==> 0 <= r < (if b < 0 then -b else b)
    ensures a < 0 ==> -(if b < 0 then -b else b) < r <= 0
  {
    var m := if b < 0 then -b else b;
    if a >= 0 then NatRem(a, m) else -(NatRem(-a, m) as int)
  }

  /** The remainder of a natural number by a positive one, by repeated subtraction. */
  function NatRem(a: nat, m: nat): (r: nat)
    requires m > 0
    ensures r < m && r <= a
    decreases a
  {
    if a < m then a else NatRem(a - m, m)
  }

  /** Euclidean division is unique: a quotient and a remainder in `[0, m)` determine `a % m`. */
  lemma RemainderIsUnique(a: int, m: int, q: int, r: int)
    requires m > 0 && 0 <= r < m && a == q * m + r
    ensures a % m == r
  {
    var k := q - a / m;
    assert a == (a / m) * m + a % m;
    assert k * m == a % m - r;
    if k > 0 {
      assert false;
    }
    if k < 0 {
      assert false;
    }
  }

  /** Repeated subtraction computes Euclidean `%` on natural numbers. */
  lemma {:induction false} NatRemIsMod(a: nat, m: nat)
    requires m > 0
    ensures NatRem(a, m) == a % m
    decreases a
  {
    if a >= m {
      NatRemIsMod(a - m, m);
      RemainderIsUnique(a, m, (a - m) / m + 1, (a - m) % m);
    } else {
      RemainderIsUnique(a, m, 0, a);
    }
  }

  /** Go's remainder differs from its dividend by a multiple of the divisor. */
  lemma GoRemIsCongruent(a: int, b: int)
    requires b != 0
    ensures (a - GoRem(a, b)) % (if b < 0 then -b else b) == 0
  {
    var m := if b < 0 then -b else b;
    var n: nat := if a >= 0 then a else -a;
    var q := n / m;
    NatRemIsMod(n, m);
    assert GoRem(a, b) == if a >= 0 then n % m else -(n % m);
    assert n == q * m + n % m;
    if a >= 0 {
      RemainderIsUnique(a - GoRem(a, b), m, q, 0);
    } else {
      RemainderIsUnique(a - GoRem(a, b), m, -q, 0);
    }
  }

  /** A number is divisible by `m` exactly when its negation is. */
  lemma NegationKeepsDivisibility(a: int, m: int)
    requires m > 0
    ensures a % m == 0 <==> (-a) % m == 0
  {
    assert a == (a / m) * m + a % m;
    if a % m == 0 {
      RemainderIsUnique(-a, m, -(a / m), 0);
    }
    assert -a == ((-a) / m) * m + (-a) % m;
    if (-a) % m == 0 {
      RemainderIsUnique(a, m, -((-a) / m), 0);
    }
  }

  /** Euclidean remainders by `b` and by `-b` agree. */
  lemma SignOfDivisorIrrelevant(a: int, b: int)
    requires b < 0
    ensures a % b == a % (-b)
  {
    assert a == (a / b) * b + a % b;
    RemainderIsUnique(a, -b, -(a / b), a % b);
  }

  /** Go's truncated remainder is zero exactly when Dafny's Euclidean one is: both mean "divides". */
  lemma GoRemIsZeroIffDivisible(a: int, b: int)
    requires b != 0
    ensures GoRem(a, b) == 0 <==> a % b == 0
  {
    var m := if b < 0 then -b else b;
    NatRemIsMod(if a >= 0 then a else -a, m);
    NegationKeepsDivisibility(a, m);
    if b < 0 {
      SignOfDivisorIrrelevant(a, b);
    }
  }

  /** Every numeric bound that is set holds of `x` (an independent reading of the four tests). */
  predicate WithinBounds(d: Descriptor, x: real) {
    && (d.maximum.None? || x <= d.maximum.value)
    && (d.minimum.None? || x >= d.minimum.value)
    && (d.exclusiveMaximum.None? || x < d.exclusiveMaximum.value)
    && (d.exclusiveMinimum.None? || x > d.exclusiveMinimum.value)
  }

  /**
   * The first numeric bound `x` breaks, checked in the source's order: maximum, minimum,
   * exclusive maximum, exclusive minimum.
   */
  function BoundError(d: Descriptor, x: real): (r: Option<Error>)
    ensures r.None? <==> WithinBounds(d, x)
    ensures d.maximum.Some? && x > d.maximum.value ==> r == Some(AboveMaximum(d.maximum.value))
    ensures ((d.maximum.None? || x <= d.maximum.value) && d.minimum.Some? && x < d.minimum.value) ==>
      r == Some(BelowMinimum(d.minimum.value))
    ensures ((d.maximum.None? || x <= d.maximum.value) && (d.minimum.None? || x >= d.minimum.value)
             && d.exclusiveMaximum.Some? && x >= d.exclusiveMaximum.value) ==>
      r == Some(NotBelow(d.exclusiveMaximum.value))
    ensures ((d.maximum.None? || x <= d.maximum.value) && (d.minimum.None? || x >= d.minimum.value)
             && (d.exclusiveMaximum.None? || x < d.exclusiveMaximum.value)
             && d.exclusiveMinimum.Some? && x <= d.exclusiveMinimum.value) ==>
      r == Some(NotAbove(d.exclusiveMinimum.value))
  {
    if d.maximum.Some? && x > d.maximum.value then Some(AboveMaximum(d.maximum.value))
    else if d.minimum.Some? && x < d.minimum.value then Some(BelowMinimum(d.minimum.value))
    else if d.exclusiveMaximum.Some? && x >= d.exclusiveMaximum.value then Some(NotBelow(d.exclusiveMaximum.value))
    else if d.exclusiveMinimum.Some? && x <= d.exclusiveMinimum.value then Some(NotAbove(d.exclusiveMinimum.value))
    else None
  }

  /** The first length bound a string of `n` bytes breaks: maximum length first. */
  function LengthError(d: Descriptor, n: nat): (r: Option<Error>)
    ensures r.None? <==> (d.maxLength.None? || n <= d.maxLength.value) && (d.minLength.None? || n >= d.minLength.value)
    ensures r.Some? ==> r.value.TooLong? || r.value.TooShort?
  {
    if d.maxLength.Some? && n > d.maxLength.value then Some(TooLong(d.maxLength.value))
    else if d.minLength.Some? && n < d.minLength.value then Some(TooShort(d.minLength.value))
    else None
  }

  /** The first count bound a collection of `n` children breaks: the upper limit first. */
  function CountError(max: Option<int>, min: Option<int>, n: nat): (r: Option<Error>)
    ensures r.None? <==> (max.None? || n <= max.value) && (min.None? || n >= min.value)
    ensures r.Some? ==> r.value.TooMany? || r.value.TooFew?
  {
    if max.Some? && n > max.value then Some(TooMany(max.value))
    else if min.Some? && n < min.value then Some(TooFew(min.value))
    else None
  }

  /** The numeric value the bounds compare: an integer widened to a float, or the float itself. */
  function NumberOf(u: Value): real
    requires u.IntV? || u.FloatV?
  {
    if u.IntV? then u.i as real else u.r
  }

  /**
   * `validateNumber` does not panic: once the bounds pass, a `multipleOf` is only ever applied to
   * an integer (`v.Int()` panics on a float) and is not zero (a division by zero).
   */
  predicate NumberSafe(d: Descriptor, u: Value)
    requires u.IntV? || u.FloatV?
  {
    BoundError(d, NumberOf(u)).None? && d.multipleOf.Some? ==> u.IntV? && d.multipleOf.value != 0
  }

  /** `validateNumber`: the bounds in order, then divisibility with Go's remainder. */
  function CheckNumber(d: Descriptor, u: Value): (r: Result<Value, Error>)
    requires u.IntV? || u.FloatV?
    requires NumberSafe(d, u)
    ensures r.Ok? ==> r.value == u && WithinBounds(d, NumberOf(u))
    ensures BoundError(d, NumberOf(u)).Some? ==> r == Err(BoundError(d, NumberOf(u)).value)
    ensures r.Err? && WithinBounds(d, NumberOf(u)) ==> d.multipleOf.Some? && r.error == NotDivisible(d.multipleOf.value)
  {
    match BoundError(d, NumberOf(u))
    case Some(e) => Err(e)
    case None =>
      if d.multipleOf.Some? && GoRem(u.i, d.multipleOf.value) != 0 then Err(NotDivisible(d.multipleOf.value))
      else Ok(u)
  }

  /** The values the walk descends into: a map's values, a struct's fields, a list's elements. */
  function Children(u: Value): (cs: seq<Value>)
    ensures forall j :: 0 <= j < |cs| ==> cs[j] < u
    ensures u.ListV? ==> cs == u.elems
    ensures u.MapV? ==> |cs| == |u.entries|
    ensures u.StructV? ==> |cs| == |u.fields|
  {
    match u
    case MapV(es) => seq(|es|, j requires 0 <= j < |es| => es[j].val)
    case StructV(fs) => seq(|fs|, j requires 0 <= j < |fs| => fs[j].val)
    case ListV(_, es) => es
    case _ => []
  }

  /**
   * The descriptor child `j` is checked against: `AdditionalProperties` for a map, the
   * `Properties` entry under the field's name for a struct, `Items` for a list. `None` is the
   * nil descriptor the source would dereference.
   */
  function ChildSchema(d: Descriptor, u: Value, j: nat): Option<Descriptor>
    requires j < |Children(u)|
  {
    match u
    case MapV(_) => d.additionalProperties
    case StructV(fs) =>
      var key := NameOfField(fs[j].name, fs[j].tag);
      if key in d.properties then Some(d.properties[key]) else None
    case ListV(_, _) => d.items
    case _ => None
  }

  /** `validate` on `v` meets no panic. */
  predicate Safe(d: Descriptor, v: Value)
    decreases v, 1, 0, 0
  {
    var u := Deref(v);
    var k := KindOf(u);
    (k == Invalid && d.defaultValue != Nil) || (k != d.rkind && k != Invalid) ||
    match u
    case IntV(ik, _) => (ik == Int32 || ik == Int64) ==> NumberSafe(d, u)
    case FloatV(_, _) => NumberSafe(d, u)
    case MapV(es) => CountError(d.maxProperties, d.minProperties, |es|).None? ==> SafeChildren(d, u, 0)
    case StructV(_) => d.maxProperties.None? && d.minProperties.None? && SafeChildren(d, u, 0)
    case ListV(_, es) => CountError(d.maxItems, d.minItems, |es|).None? ==> SafeChildren(d, u, 0)
    case _ => true
  }

  /** The walk over children `i..` meets no panic: it stops at the first child that fails. */
  predicate SafeChildren(d: Descriptor, u: Value, i: nat)
    requires i <= |Children(u)|
    decreases u, 0, |Children(u)| - i, 0
  {
    i == |Children(u)| ||
    var c := ChildSchema(d, u, i);
    && c.Some?
    && Safe(c.value, Children(u)[i])
    && (Check(c.value, Children(u)[i]).Ok? ==> SafeChildren(d, u, i + 1))
  }

  /**
   * `validate`: one pointer level is stripped; an absent value yields the default when there is
   * one; a value of another kind is rejected; strings, the four sized numeric kinds, maps,
   * structs and lists are checked; anything else passes. A value that passes is returned as is.
   */
  function Check(d: Descriptor, v: Value): Result<Value, Error>
    requires Safe(d, v)
    decreases v, 2, 0, 0
  {
    var u := Deref(v);
    var k := KindOf(u);
    if k == Invalid && d.defaultValue != Nil then Ok(d.defaultValue)
    else if k != d.rkind && k != Invalid then Err(InvalidType(d.typeName))
    else
      match u
      case StrV(s) =>
        (match LengthError(d, |s|) case Some(e) => Err(e) case None => Ok(u))
      case IntV(ik, _) => if ik == Int32 || ik == Int64 then CheckNumber(d, u) else Ok(u)
      case FloatV(_, _) => CheckNumber(d, u)
      case MapV(es) =>
        (match CountError(d.maxProperties, d.minProperties, |es|)
         case Some(e) => Err(e)
         case None => match ChildrenError(d, u, 0) case Some(e) => Err(e) case None => Ok(u))
      case StructV(_) =>
        (match ChildrenError(d, u, 0) case Some(e) => Err(e) case None => Ok(u))
      case ListV(_, es) =>
        (match CountError(d.maxItems, d.minItems, |es|)
         case Some(e) => Err(e)
         case None => match ChildrenError(d, u, 0) case Some(e) => Err(e) case None => Ok(u))
      case _ => Ok(u)
  }

  /** The error of the first failing child from `i` on, if any. */
  function ChildrenError(d: Descriptor, u: Value, i: nat): Option<Error>
    requires i <= |Children(u)| && SafeChildren(d, u, i)
    decreases u, 0, |Children(u)| - i, 1
  {
    if i == |Children(u)| then None
    else
      match Check(ChildSchema(d, u, i).value, Children(u)[i])
      case Err(e) => Some(e)
      case Ok(_) => ChildrenError(d, u, i + 1)
  }

  /** Child `j` is checked without a panic and passes. */
  predicate ChildPasses(d: Descriptor, u: Value, j: nat)
    requires j < |Children(u)|
  {
    var c := ChildSchema(d, u, j);
    c.Some? && Safe(c.value, Children(u)[j]) && Check(c.value, Children(u)[j]).Ok?
  }

  /** Child `j` is checked without a panic and fails with `e`. */
  predicate ChildFails(d: Descriptor, u: Value, j: nat, e: Error)
    requires j < |Children(u)|
  {
    var c := ChildSchema(d, u, j);
    c.Some? && Safe(c.value, Children(u)[j]) && Check(c.value, Children(u)[j]) == Err(e)
  }

  /** Child `j` fails with `e` and every child before it (from `i`) passes. */
  predicate FirstFailure(d: Descriptor, u: Value, i: nat, j: nat, e: Error)
    requires i <= j < |Children(u)|
  {
    (forall k :: i <= k < j ==> ChildPasses(d, u, k)) && ChildFails(d, u, j, e)
  }

  /** One step of the walk: a passing child hands over to the next, a failing one reports its error. */
  lemma ChildrenErrorStep(d: Descriptor, u: Value, i: nat)
    requires i < |Children(u)| && SafeChildren(d, u, i)
    ensures ChildPasses(d, u, i) ==> SafeChildren(d, u, i + 1) && ChildrenError(d, u, i) == ChildrenError(d, u, i + 1)
    ensures !ChildPasses(d, u, i) ==> ChildrenError(d, u, i).Some?
  {
  }

  /** A child that does not pass is the one whose error the walk reports. */
  lemma FailingChildReported(d: Descriptor, u: Value, i: nat)
    requires i < |Children(u)| && SafeChildren(d, u, i) && !ChildPasses(d, u, i)
    ensures ChildrenError(d, u, i).Some? && ChildFails(d, u, i, ChildrenError(d, u, i).value)
  {
  }

  /** Whether each child passes, in order. */
  function PassMarks(d: Descriptor, u: Value): (ms: seq<bool>)
    ensures |ms| == |Children(u)|
    ensures forall j :: 0 <= j < |ms| ==> ms[j] == ChildPasses(d, u, j)
  {
    seq(|Children(u)|, j requires 0 <= j < |Children(u)| => ChildPasses(d, u, j))
  }

  /** Every mark from `i` on is set, one mark at a time. */
  predicate AllSet(ms: seq<bool>, i: nat)
    requires i <= |ms|
    decreases |ms| - i
  {
    i == |ms| || (ms[i] && AllSet(ms, i + 1))
  }

  /** `AllSet` says of each mark from `i` on that it is set. */
  lemma {:induction false} AllSetMeansEach(ms: seq<bool>, i: nat)
    requires i <= |ms|
    ensures AllSet(ms, i) <==> forall j :: i <= j < |ms| ==> ms[j]
    decreases |ms| - i
  {
    if i < |ms| {
      AllSetMeansEach(ms, i + 1);
    }
  }

  /** Every child from `i` on passes, one child at a time. */
  predicate AllPass(d: Descriptor, u: Value, i: nat)
    requires i <= |Children(u)|
  {
    AllSet(PassMarks(d, u), i)
  }

  /** All children from `i` on pass exactly when child `i` does and all after it do. */
  lemma AllPassStep(d: Descriptor, u: Value, i: nat)
    requires i < |Children(u)|
    ensures AllPass(d, u, i) <==> ChildPasses(d, u, i) && AllPass(d, u, i + 1)
  {
  }

  /** The walk over children from `i` reports no error exactly when `AllPass` holds. */
  lemma {:induction false} NoChildErrorIsAllPass(d: Descriptor, u: Value, i: nat)
    requires i <= |Children(u)| && SafeChildren(d, u, i)
    ensures ChildrenError(d, u, i).None? <==> AllPass(d, u, i)
    decreases |Children(u)| - i
  {
    if i < |Children(u)| {
      ChildrenErrorStep(d, u, i);
      AllPassStep(d, u, i);
      if ChildPasses(d, u, i) {
        NoChildErrorIsAllPass(d, u, i + 1);
      }
    }
  }

  /** The walk over children reports no error exactly when every child passes. */
  lemma ChildrenPassUnlessError(d: Descriptor, u: Value, i: nat)
    requires i <= |Children(u)| && SafeChildren(d, u, i)
    ensures ChildrenError(d, u, i).None? <==> forall j :: i <= j < |Children(u)| ==> ChildPasses(d, u, j)
  {
    NoChildErrorIsAllPass(d, u, i);
    AllSetMeansEach(PassMarks(d, u), i);
  }

  /** A passing child in front of a first failure leaves it the first failure. */
  lemma PassingChildExtendsFailure(d: Descriptor, u: Value, i: nat, j: nat, e: Error)
    requires i < j < |Children(u)| && ChildPasses(d, u, i) && FirstFailure(d, u, i + 1, j, e)
    ensures FirstFailure(d, u, i, j, e)
  {
  }

  /** An error of the walk over children is that of the first child that fails. */
  lemma {:induction false} ChildrenErrorIsFirstFailure(d: Descriptor, u: Value, i: nat)
    requires i <= |Children(u)| && SafeChildren(d, u, i)
    ensures ChildrenError(d, u, i).Some? ==>
      exists j :: i <= j < |Children(u)| && FirstFailure(d, u, i, j, ChildrenError(d, u, i).value)
    decreases |Children(u)| - i
  {
    if i < |Children(u)| && ChildrenError(d, u, i).Some? {
      var e := ChildrenError(d, u, i).value;
      ChildrenErrorStep(d, u, i);
      if ChildPasses(d, u, i) {
        ChildrenErrorIsFirstFailure(d, u, i + 1);
        var j :| i + 1 <= j < |Children(u)| && FirstFailure(d, u, i + 1, j, e);
        PassingChildExtendsFailure(d, u, i, j, e);
      } else {
        FailingChildReported(d, u, i);
        assert FirstFailure(d, u, i, i, e);
      }
    }
  }

  /**
   * The validator never invents a value: a success returns the value itself (one pointer level
   * stripped) or, for an absent value, the default; and a present value that passes has the
   * descriptor's kind.
   */
  lemma CheckReturnsValueOrDefault(d: Descriptor, v: Value)
    requires Safe(d, v)
    ensures Check(d, v).Ok? ==> Check(d, v).value == Deref(v) || (KindOf(Deref(v)) == Invalid && Check(d, v).value == d.defaultValue)
    ensures Check(d, v).Ok? && KindOf(Deref(v)) != Invalid ==> KindOf(Deref(v)) == d.rkind
  {
  }

  /** An absent value, or a nil pointer, yields the default when one is set and nil otherwise. */
  lemma AbsentGivesDefault(d: Descriptor, v: Value)
    requires Deref(v) == Nil
    ensures Safe(d, v)
    ensures d.defaultValue != Nil ==> Check(d, v) == Ok(d.defaultValue)
    ensures d.defaultValue == Nil ==> Check(d, v) == Ok(Nil)
  {
  }

  /**
   * `validate`'s `default:` arm: a present value of the descriptor's kind that is not a string,
   * a sized number, a map, a struct or a list skips every constraint and comes back unchanged.
   */
  lemma OtherKindsPass(d: Descriptor, v: Value)
    requires KindOf(Deref(v)) == d.rkind
    requires d.rkind !in {String, Int32, Int64, Float32, Float64, Map, Struct, Slice, Array, Invalid}
    ensures Safe(d, v) && Check(d, v) == Ok(Deref(v))
  {
  }

  /** A present value of a kind other than the descriptor's is rejected with its type name. */
  lemma WrongKindRejected(d: Descriptor, v: Value)
    requires KindOf(Deref(v)) != Invalid && KindOf(Deref(v)) != d.rkind
    ensures Safe(d, v)
    ensures Check(d, v) == Err(InvalidType(d.typeName))
  {
  }

  /** A present value that passes comes back unchanged (after one pointer level is stripped). */
  lemma PassingValueIsReturned(d: Descriptor, v: Value)
    requires Safe(d, v) && Deref(v) != Nil && Check(d, v).Ok?
    ensures Check(d, v).value == Deref(v)
  {
  }

  /** A string passes exactly when its byte length is within both length limits; maxLength is checked first. */
  lemma StringRule(d: Descriptor, s: string)
    requires d.rkind == String
    ensures Safe(d, StrV(s))
    ensures Check(d, StrV(s)).Ok? <==>
      (d.maxLength.None? || |s| <= d.maxLength.value) && (d.minLength.None? || |s| >= d.minLength.value)
    ensures d.maxLength.Some? && |s| > d.maxLength.value ==> Check(d, StrV(s)) == Err(TooLong(d.maxLength.value))
    ensures (d.maxLength.None? || |s| <= d.maxLength.value) && d.minLength.Some? && |s| < d.minLength.value ==>
      Check(d, StrV(s)) == Err(TooShort(d.minLength.value))
  {
  }

  /**
   * An int32 or int64 passes exactly when it is within every bound and divisible by
   * `multipleOf`; the bounds are checked before divisibility.
   */
  lemma IntegerRule(d: Descriptor, v: Value)
    requires v.IntV? && (v.ik == Int32 || v.ik == Int64) && d.rkind == v.ik && Safe(d, v)
    ensures Check(d, v).Ok? <==>
      WithinBounds(d, v.i as real) && (d.multipleOf.Some? ==> v.i % d.multipleOf.value == 0)
    ensures !WithinBounds(d, v.i as real) ==> Check(d, v) == Err(BoundError(d, v.i as real).value)
    ensures WithinBounds(d, v.i as real) && d.multipleOf.Some? && v.i % d.multipleOf.value != 0 ==>
      Check(d, v) == Err(NotDivisible(d.multipleOf.value))
  {
    if WithinBounds(d, v.i as real) && d.multipleOf.Some? {
      GoRemIsZeroIffDivisible(v.i, d.multipleOf.value);
    }
  }

  /** A float32 or float64 passes exactly when it is within every bound. */
  lemma FloatRule(d: Descriptor, v: Value)
    requires v.FloatV? && d.rkind == v.fk && Safe(d, v)
    ensures Check(d, v).Ok? <==> WithinBounds(d, v.r)
    ensures !WithinBounds(d, v.r) ==> Check(d, v) == Err(BoundError(d, v.r).value)
  {
  }

  /** `multipleOf` on a float descriptor panics as soon as a value passes the bounds. */
  lemma MultipleOfOnFloatPanics(d: Descriptor, x: real)
    requires (d.rkind == Float32 || d.rkind == Float64) && d.multipleOf.Some? && WithinBounds(d, x)
    ensures !Safe(d, FloatV(d.rkind, x))
  {
  }

  /**
   * A list passes exactly when its length is within both item limits and every element passes
   * against `Items`; otherwise the error is the count's, or that of the first failing element.
   */
  lemma ListRule(d: Descriptor, v: Value)
    requires v.ListV? && d.rkind == v.lk && Safe(d, v)
    ensures var n := |v.elems|;
      Check(d, v).Ok? <==>
        CountError(d.maxItems, d.minItems, n).None? && forall j :: 0 <= j < n ==> ChildPasses(d, v, j)
    ensures CountError(d.maxItems, d.minItems, |v.elems|).Some? ==>
      Check(d, v) == Err(CountError(d.maxItems, d.minItems, |v.elems|).value)
    ensures CountError(d.maxItems, d.minItems, |v.elems|).None? && Check(d, v).Err? ==>
      exists j :: 0 <= j < |v.elems| && FirstFailure(d, v, 0, j, Check(d, v).error)
  {
    if CountError(d.maxItems, d.minItems, |v.elems|).None? {
      ChildrenPassUnlessError(d, v, 0);
      ChildrenErrorIsFirstFailure(d, v, 0);
    }
  }

  /**
   * A struct passes exactly when every field passes against the `Properties` entry under its
   * name; otherwise the error is that of the first failing field.
   */
  lemma StructRule(d: Descriptor, v: Value)
    requires v.StructV? && d.rkind == Struct && Safe(d, v)
    ensures Check(d, v).Ok? <==> forall j :: 0 <= j < |v.fields| ==> ChildPasses(d, v, j)
    ensures Check(d, v).Err? ==> exists j :: 0 <= j < |v.fields| && FirstFailure(d, v, 0, j, Check(d, v).error)
  {
    ChildrenPassUnlessError(d, v, 0);
    ChildrenErrorIsFirstFailure(d, v, 0);
  }

  /**
   * A map passes exactly when its size is within both property limits and every value passes
   * against `AdditionalProperties`; otherwise the error is the count's or some value's.
   */
  lemma MapRule(d: Descriptor, v: Value)
    requires v.MapV? && d.rkind == Map && Safe(d, v)
    ensures var n := |v.entries|;
      Check(d, v).Ok? <==>
        CountError(d.maxProperties, d.minProperties, n).None? && forall j :: 0 <= j < n ==> ChildPasses(d, v, j)
    ensures CountError(d.maxProperties, d.minProperties, |v.entries|).Some? ==>
      Check(d, v) == Err(CountError(d.maxProperties, d.minProperties, |v.entries|).value)
    ensures CountError(d.maxProperties, d.minProperties, |v.entries|).None? && Check(d, v).Err? ==>
      exists j :: 0 <= j < |v.entries| && ChildFails(d, v, j, Check(d, v).error)
  {
    if CountError(d.maxProperties, d.minProperties, |v.entries|).None? {
      ChildrenPassUnlessError(d, v, 0);
      ChildrenErrorIsFirstFailure(d, v, 0);
    }
  }

  /** A struct descriptor with a property count panics on every struct value. */
  lemma PropertyCountOnStructPanics(d: Descriptor, v: Value)
    requires v.StructV? && d.rkind == Struct && (d.maxProperties.Some? || d.minProperties.Some?)
    ensures !Safe(d, v)
  {
  }

  /** `validate`, dispatching as the source does. */
  method Validate(d: Descriptor, v: Value) returns (r: Result<Value, Error>)
    requires Safe(d, v)
    ensures r == Check(d, v)
    decreases v, 1
  {
    var u := v;
    if u.PtrV? {
      u := u.target;
    }
    var k := KindOf(u);
    if k == Invalid && d.defaultValue != Nil {
      return Ok(d.defaultValue);
    }
    if k != d.rkind && k != Invalid {
      return Err(InvalidType(d.typeName));
    }
    match u {
      case StrV(s) =>
        var e := LengthError(d, |s|);
        r := if e.Some? then Err(e.value) else Ok(u);
      case IntV(ik, _) =>
        r := if ik == Int32 || ik == Int64 then CheckNumber(d, u) else Ok(u);
      case FloatV(_, _) =>
        r := CheckNumber(d, u);
      case MapV(_) =>
        r := ValidateMap(d, u);
      case StructV(_) =>
        r := ValidateStruct(d, u);
      case ListV(_, _) =>
        r := ValidateArray(d, u);
      case _ =>
        r := Ok(u);
    }
  }

  /** `validateMap`: the count, then every value in iteration order, stopping at the first error. */
  method ValidateMap(d: Descriptor, u: Value) returns (r: Result<Value, Error>)
    requires u.MapV? && d.rkind == Map && Safe(d, u)
    ensures r == Check(d, u)
    decreases u, 0
  {
    var es := u.entries;
    var e := CountError(d.maxProperties, d.minProperties, |es|);
    if e.Some? {
      return Err(e.value);
    }
    var i := 0;
    while i < |es|
      invariant 0 <= i <= |es|
      invariant SafeChildren(d, u, i)
      invariant ChildrenError(d, u, i) == ChildrenError(d, u, 0)
    {
      var c := Validate(d.additionalProperties.value, es[i].val);
      if c.Err? {
        return Err(c.error);
      }
      i := i + 1;
    }
    return Ok(u);
  }

  /** `validateStruct`: every field against the descriptor under its name, stopping at the first error. */
  method ValidateStruct(d: Descriptor, u: Value) returns (r: Result<Value, Error>)
    requires u.StructV? && d.rkind == Struct && Safe(d, u)
    ensures r == Check(d, u)
    decreases u, 0
  {
    var fs := u.fields;
    var i := 0;
    while i < |fs|
      invariant 0 <= i <= |fs|
      invariant SafeChildren(d, u, i)
      invariant ChildrenError(d, u, i) == ChildrenError(d, u, 0)
    {
      var c := Validate(d.properties[NameOfField(fs[i].name, fs[i].tag)], fs[i].val);
      if c.Err? {
        return Err(c.error);
      }
      i := i + 1;
    }
    return Ok(u);
  }

  /** `validateArray`: the count, then every element in order, stopping at the first error. */
  method ValidateArray(d: Descriptor, u: Value) returns (r: Result<Value, Error>)
    requires u.ListV? && d.rkind == u.lk && Safe(d, u)
    ensures r == Check(d, u)
    decreases u, 0
  {
    var es := u.elems;
    var e := CountError(d.maxItems, d.minItems, |es|);
    if e.Some? {
      return Err(e.value);
    }
    var i := 0;
    while i < |es|
      invariant 0 <= i <= |es|
      invariant SafeChildren(d, u, i)
      invariant ChildrenError(d, u, i) == ChildrenError(d, u, 0)
    {
      var c := Validate(d.items.value, es[i]);
      if c.Err? {
        return Err(c.error);
      }
      i := i + 1;
    }
    return Ok(u);
  }
}
