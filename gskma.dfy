/**
 * The public surface: the `Schema` object holding one descriptor, its leaf and reflective
 * constructors, the eleven kind-gated fluent setters, `Default` and `Validate`.
 *
 * A setter that the source lets panic returns `Panicked(message)` here and leaves the descriptor
 * as it was; one that succeeds returns the receiver, for chaining.
 */
module Gskma {
  import opened Wrappers
  import opened Reflect
  import opened Errors
  import opened Descriptors
  import opened Converters
  import opened Utils
  import opened Validators
  import Strconv

  /** What a configuring call does to a descriptor: stores the updated one, or panics. */
  datatype Outcome = Stored(d: Descriptor) | Panic(message: string)

  /** The fixed message each fluent setter panics with. */
  function SetterMessage(c: Constraint): string {
    match c
    case Maximum => "Maximum must only be used with integer and number types"
    case Minimum => "Minimum can be used only with integer and number types"
    case ExclusiveMaximum => "ExclusiveMaximum must only be used with integer and number types"
    case ExclusiveMinimum => "ExclusiveMinimum can be used only with integer and number types"
    case MultipleOf => "MultipleOf can be used only with integer type"
    case MaxLength => "MaxLength can be used only with string Schema"
    case MinLength => "MinLength can be used only with string Schema"
    case MaxItems => "MaxItems can be used only with array Schema"
    case MinItems => "MinItems can be used only with array Schema"
    case MaxProperties => "MaxProperties can be used only with object Schema"
    case MinProperties => "MinProperties can be used only with object Schema"
  }

  /**
   * A fluent setter: the constraint is stored exactly when the descriptor's type name admits it
   * (bounds on "integer" and "number", `multipleOf` on "integer", lengths on "string", item
   * counts on "array", property counts on "object"); otherwise the setter panics.
   */
  function Configure(d: Descriptor, c: Constraint, l: Limit): (r: Outcome)
    requires Fits(c, l)
    ensures r.Stored? <==> Admits(d.typeName, c)
    ensures r.Stored? ==> Get(r.d, c) == Some(l) && Shape(r.d) == Shape(d)
    ensures r.Panic? ==> r.message == SetterMessage(c)
  {
    if Admits(d.typeName, c) then
      SetChangesOnlyItsConstraint(d, c, l, c);
      Stored(Set(d, c, l))
    else Panic(SetterMessage(c))
  }

  /** A setter changes its own constraint only: type name, kind, children and the others stay. */
  lemma ConfigureChangesOnlyItsConstraint(d: Descriptor, c: Constraint, l: Limit, other: Constraint)
    requires Fits(c, l) && Configure(d, c, l).Stored? && other != c
    ensures Get(Configure(d, c, l).d, other) == Get(d, other)
  {
    SetChangesOnlyItsConstraint(d, c, l, other);
  }

  /** Setters keep every constraint suited to the type name, so a chain of them never mismatches. */
  lemma ConfigureKeepsKindCompatible(d: Descriptor, c: Constraint, l: Limit)
    requires Fits(c, l) && KindCompatible(d) && Configure(d, c, l).Stored?
    ensures KindCompatible(Configure(d, c, l).d)
  {
    var e := Configure(d, c, l).d;
    forall other | Get(e, other).Some?
      ensures Admits(e.typeName, other)
    {
      SetChangesOnlyItsConstraint(d, c, l, other);
    }
  }

  /**
   * `Default`: the value is coerced as `Validate` would coerce it and stored as the default; a
   * value that does not coerce panics.
   */
  function WithDefault(parseFloat: FloatParser, d: Descriptor, value: Value): (r: Outcome)
    ensures r.Stored? <==> CastIfNumeric(parseFloat, d, value).Ok?
    ensures r.Stored? ==> Shape(r.d) == Shape(d).(defaultValue := r.d.defaultValue)
    ensures r.Stored? ==> r.d.defaultValue == CastIfNumeric(parseFloat, d, value).value
    ensures r.Stored? ==> forall c :: Get(r.d, c) == Get(d, c)
    ensures r.Stored? && value != Nil && Coerces(d.rkind) ==> KindOf(r.d.defaultValue) == d.rkind
    ensures r.Panic? ==> r.message == "invalid default value for type"
  {
    match CastIfNumeric(parseFloat, d, value)
    case Ok(c) => Stored(d.(defaultValue := c))
    case Err(_) => Panic("invalid default value for type")
  }

  /** `Validate` meets no panic on `value`. */
  predicate CanValidate(parseFloat: FloatParser, d: Descriptor, value: Value) {
    CastIfNumeric(parseFloat, d, value).Ok? ==> Safe(d, CastIfNumeric(parseFloat, d, value).value)
  }

  /**
   * `Validate`: the top-level value is coerced once, then validated. A coercion or validation
   * error gives the error; an absent result gives `Ok(Nil)` (the source's nil, nil).
   */
  function ValidateData(parseFloat: FloatParser, d: Descriptor, value: Value): (r: Result<Value, Error>)
    requires CanValidate(parseFloat, d, value)
    ensures CastIfNumeric(parseFloat, d, value).Err? ==> r == Err(CastIfNumeric(parseFloat, d, value).error)
    ensures value == Nil ==> r == Ok(d.defaultValue)
    ensures CastIfNumeric(parseFloat, d, value).Ok? && Deref(CastIfNumeric(parseFloat, d, value).value) != Nil && r.Ok? ==>
      r.value == Deref(CastIfNumeric(parseFloat, d, value).value)
    ensures CastIfNumeric(parseFloat, d, value).Ok? ==>
      && (r.Err? <==> Check(d, CastIfNumeric(parseFloat, d, value).value).Err?)
      && (r.Err? ==> r == Check(d, CastIfNumeric(parseFloat, d, value).value))
    ensures CastIfNumeric(parseFloat, d, value).Ok? && Deref(CastIfNumeric(parseFloat, d, value).value) == Nil ==>
      r == Ok(d.defaultValue)
  {
    match CastIfNumeric(parseFloat, d, value)
    case Err(e) => Err(e)
    case Ok(c) =>
      if Deref(c) == Nil then
        AbsentGivesDefault(d, c);
        Check(d, c)
      else if Check(d, c).Ok? then
        PassingValueIsReturned(d, c);
        Check(d, c)
      else
        Check(d, c)
  }

  /** After `Default`, validating an absent value gives the stored default. */
  lemma DefaultAnswersAbsent(parseFloat: FloatParser, d: Descriptor, value: Value)
    requires WithDefault(parseFloat, d, value).Stored?
    ensures CanValidate(parseFloat, WithDefault(parseFloat, d, value).d, Nil)
    ensures ValidateData(parseFloat, WithDefault(parseFloat, d, value).d, Nil) == Ok(CastIfNumeric(parseFloat, d, value).value)
  {
    AbsentGivesDefault(WithDefault(parseFloat, d, value).d, Nil);
  }

  /** `Int32().Validate("1")` is int32(1); "1.5", "string" and an empty slice are errors. */
  lemma Int32Examples(parseFloat: FloatParser)
    ensures CanValidate(parseFloat, Int32Schema(), StrV("1"))
    ensures ValidateData(parseFloat, Int32Schema(), StrV("1")) == Ok(IntV(Int32, 1))
    ensures CanValidate(parseFloat, Int32Schema(), StrV("1.5"))
    ensures ValidateData(parseFloat, Int32Schema(), StrV("1.5")) == Err(NotOfType("boolean"))
    ensures CanValidate(parseFloat, Int32Schema(), StrV("string"))
    ensures ValidateData(parseFloat, Int32Schema(), StrV("string")).Err?
    ensures CanValidate(parseFloat, Int32Schema(), ListV(Slice, []))
    ensures ValidateData(parseFloat, Int32Schema(), ListV(Slice, [])).Err?
  {
    assert !Strconv.IsDigit("1.5"[1]);
    assert !Strconv.IsDigit("string"[0]);
  }

  /** `Float32().Validate("1")` is float32(1), given that ParseFloat reads "1" as 1. */
  lemma Float32Example(parseFloat: FloatParser)
    requires parseFloat("1", 32) == Some(1.0)
    ensures CanValidate(parseFloat, Float32Schema(), StrV("1"))
    ensures ValidateData(parseFloat, Float32Schema(), StrV("1")) == Ok(FloatV(Float32, 1.0))
  {
  }

  /** `Boolean().Validate("true")` is true, and a number is not a boolean. */
  lemma BooleanExample(parseFloat: FloatParser)
    ensures CanValidate(parseFloat, BooleanSchema(), StrV("true"))
    ensures ValidateData(parseFloat, BooleanSchema(), StrV("true")) == Ok(BoolV(true))
    ensures CanValidate(parseFloat, BooleanSchema(), IntV(Int, 1))
    ensures ValidateData(parseFloat, BooleanSchema(), IntV(Int, 1)) == Err(NotOfType("boolean"))
  {
  }

  /** A setter on the wrong kind panics: `String().Maximum(1)`. */
  lemma WrongKindSetterPanics()
    ensures Configure(StringSchema(), Maximum, RealLimit(1.0)) == Panic("Maximum must only be used with integer and number types")
    ensures Configure(Float64Schema(), MultipleOf, IntLimit(2)).Panic?
  {
  }

  /** `Int64().Minimum(1).Maximum(1).MultipleOf(1)` sets the three constraints and nothing else. */
  lemma SingletonRangeConfigured()
    ensures Configure(Int64Schema(), Minimum, RealLimit(1.0)) == Stored(Int64Schema().(minimum := Some(1.0)))
    ensures Configure(Int64Schema().(minimum := Some(1.0)), Maximum, RealLimit(1.0))
      == Stored(Int64Schema().(minimum := Some(1.0), maximum := Some(1.0)))
    ensures Configure(Int64Schema().(minimum := Some(1.0), maximum := Some(1.0)), MultipleOf, IntLimit(1))
      == Stored(Int64Schema().(minimum := Some(1.0), maximum := Some(1.0), multipleOf := Some(1)))
  {
  }

  /** That descriptor admits 1 only: 2 is above the maximum and 0 below the minimum. */
  lemma SingletonRangeExample(parseFloat: FloatParser)
    ensures var d := Int64Schema().(minimum := Some(1.0), maximum := Some(1.0), multipleOf := Some(1));
      && CanValidate(parseFloat, d, IntV(Int64, 1)) && ValidateData(parseFloat, d, IntV(Int64, 1)) == Ok(IntV(Int64, 1))
      && CanValidate(parseFloat, d, IntV(Int64, 2)) && ValidateData(parseFloat, d, IntV(Int64, 2)) == Err(AboveMaximum(1.0))
      && CanValidate(parseFloat, d, IntV(Int64, 0)) && ValidateData(parseFloat, d, IntV(Int64, 0)) == Err(BelowMinimum(1.0))
  {
  }

  /** The result of a fluent call: the receiver, for chaining, or the panic's message. */
  datatype Chain = Returned(receiver: Schema) | Panicked(message: string)

  /** The source's `Schema`: one descriptor, configured in place. */
  class Schema {
    var data: Descriptor

    /** `String()`. */
    constructor OfString()
      ensures data == StringSchema()
    {
      data := StringSchema();
    }

    /** `Int32()`. */
    constructor OfInt32()
      ensures data == Int32Schema()
    {
      data := Int32Schema();
    }

    /** `Int64()`. */
    constructor OfInt64()
      ensures data == Int64Schema()
    {
      data := Int64Schema();
    }

    /** `Float32()`. */
    constructor OfFloat32()
      ensures data == Float32Schema()
    {
      data := Float32Schema();
    }

    /** `Float64()`. */
    constructor OfFloat64()
      ensures data == Float64Schema()
    {
      data := Float64Schema();
    }

    /** `Boolean()`. */
    constructor OfBoolean()
      ensures data == BooleanSchema()
    {
      data := BooleanSchema();
    }

    /** `TypeOf`: the descriptor the builder derives from a type. */
    constructor TypeOf(parseFloat: FloatParser, t: TypeDef)
      requires Buildable(t)
      ensures data == Describe(parseFloat, t)
    {
      var d := NewSchema(parseFloat, t);
      data := d;
    }

    /** One kind-gated setter: stores the constraint and returns the receiver, or panics. */
    method Apply(c: Constraint, l: Limit) returns (r: Chain)
      requires Fits(c, l)
      modifies this
      ensures Configure(old(data), c, l).Stored? ==> data == Configure(old(data), c, l).d && r == Returned(this)
      ensures Configure(old(data), c, l).Panic? ==> data == old(data) && r == Panicked(Configure(old(data), c, l).message)
    {
      match Configure(data, c, l)
      case Stored(d) =>
        data := d;
        r := Returned(this);
      case Panic(m) =>
        r := Panicked(m);
    }

    /** `Maximum(max)`. */
    method Maximum(max: real) returns (r: Chain)
      modifies this
      ensures Configure(old(data), Constraint.Maximum, RealLimit(max)).Stored? ==>
        data == Configure(old(data), Constraint.Maximum, RealLimit(max)).d && r == Returned(this)
      ensures Configure(old(data), Constraint.Maximum, RealLimit(max)).Panic? ==>
        data == old(data) && r == Panicked(SetterMessage(Constraint.Maximum))
    {
      r := Apply(Constraint.Maximum, RealLimit(max));
    }

    /** `Minimum(min)`. */
    method Minimum(min: real) returns (r: Chain)
      modifies this
      ensures Configure(old(data), Constraint.Minimum, RealLimit(min)).Stored? ==>
        data == Configure(old(data), Constraint.Minimum, RealLimit(min)).d && r == Returned(this)
      ensures Configure(old(data), Constraint.Minimum, RealLimit(min)).Panic? ==>
        data == old(data) && r == Panicked(SetterMessage(Constraint.Minimum))
    {
      r := Apply(Constraint.Minimum, RealLimit(min));
    }

    /** `ExclusiveMaximum(max)`. */
    method ExclusiveMaximum(max: real) returns (r: Chain)
      modifies this
      ensures Configure(old(data), Constraint.ExclusiveMaximum, RealLimit(max)).Stored? ==>
        data == Configure(old(data), Constraint.ExclusiveMaximum, RealLimit(max)).d && r == Returned(this)
      ensures Configure(old(data), Constraint.ExclusiveMaximum, RealLimit(max)).Panic? ==>
        data == old(data) && r == Panicked(SetterMessage(Constraint.ExclusiveMaximum))
    {
      r := Apply(Constraint.ExclusiveMaximum, RealLimit(max));
    }

    /** `ExclusiveMinimum(min)`. */
    method ExclusiveMinimum(min: real) returns (r: Chain)
      modifies this
      ensures Configure(old(data), Constraint.ExclusiveMinimum, RealLimit(min)).Stored? ==>
        data == Configure(old(data), Constraint.ExclusiveMinimum, RealLimit(min)).d && r == Returned(this)
      ensures Configure(old(data), Constraint.ExclusiveMinimum, RealLimit(min)).Panic? ==>
        data == old(data) && r == Panicked(SetterMessage(Constraint.ExclusiveMinimum))
    {
      r := Apply(Constraint.ExclusiveMinimum, RealLimit(min));
    }

    /** `MultipleOf(value)`. */
    method MultipleOf(value: int) returns (r: Chain)
      modifies this
      ensures Configure(old(data), Constraint.MultipleOf, IntLimit(value)).Stored? ==>
        data == Configure(old(data), Constraint.MultipleOf, IntLimit(value)).d && r == Returned(this)
      ensures Configure(old(data), Constraint.MultipleOf, IntLimit(value)).Panic? ==>
        data == old(data) && r == Panicked(SetterMessage(Constraint.MultipleOf))
    {
      r := Apply(Constraint.MultipleOf, IntLimit(value));
    }

    /** `MaxLength(max)`. */
    method MaxLength(max: int) returns (r: Chain)
      modifies this
      ensures Configure(old(data), Constraint.MaxLength, IntLimit(max)).Stored? ==>
        data == Configure(old(data), Constraint.MaxLength, IntLimit(max)).d && r == Returned(this)
      ensures Configure(old(data), Constraint.MaxLength, IntLimit(max)).Panic? ==>
        data == old(data) && r == Panicked(SetterMessage(Constraint.MaxLength))
    {
      r := Apply(Constraint.MaxLength, IntLimit(max));
    }

    /** `MinLength(min)`. */
    method MinLength(min: int) returns (r: Chain)
      modifies this
      ensures Configure(old(data), Constraint.MinLength, IntLimit(min)).Stored? ==>
        data == Configure(old(data), Constraint.MinLength, IntLimit(min)).d && r == Returned(this)
      ensures Configure(old(data), Constraint.MinLength, IntLimit(min)).Panic? ==>
        data == old(data) && r == Panicked(SetterMessage(Constraint.MinLength))
    {
      r := Apply(Constraint.MinLength, IntLimit(min));
    }

    /** `MaxItems(max)`. */
    method MaxItems(max: int) returns (r: Chain)
      modifies this
      ensures Configure(old(data), Constraint.MaxItems, IntLimit(max)).Stored? ==>
        data == Configure(old(data), Constraint.MaxItems, IntLimit(max)).d && r == Returned(this)
      ensures Configure(old(data), Constraint.MaxItems, IntLimit(max)).Panic? ==>
        data == old(data) && r == Panicked(SetterMessage(Constraint.MaxItems))
    {
      r := Apply(Constraint.MaxItems, IntLimit(max));
    }

    /** `MinItems(min)`. */
    method MinItems(min: int) returns (r: Chain)
      modifies this
      ensures Configure(old(data), Constraint.MinItems, IntLimit(min)).Stored? ==>
        data == Configure(old(data), Constraint.MinItems, IntLimit(min)).d && r == Returned(this)
      ensures Configure(old(data), Constraint.MinItems, IntLimit(min)).Panic? ==>
        data == old(data) && r == Panicked(SetterMessage(Constraint.MinItems))
    {
      r := Apply(Constraint.MinItems, IntLimit(min));
    }

    /** `MaxProperties(max)`. */
    method MaxProperties(max: int) returns (r: Chain)
      modifies this
      ensures Configure(old(data), Constraint.MaxProperties, IntLimit(max)).Stored? ==>
        data == Configure(old(data), Constraint.MaxProperties, IntLimit(max)).d && r == Returned(this)
      ensures Configure(old(data), Constraint.MaxProperties, IntLimit(max)).Panic? ==>
        data == old(data) && r == Panicked(SetterMessage(Constraint.MaxProperties))
    {
      r := Apply(Constraint.MaxProperties, IntLimit(max));
    }

    /** `MinProperties(min)`. */
    method MinProperties(min: int) returns (r: Chain)
      modifies this
      ensures Configure(old(data), Constraint.MinProperties, IntLimit(min)).Stored? ==>
        data == Configure(old(data), Constraint.MinProperties, IntLimit(min)).d && r == Returned(this)
      ensures Configure(old(data), Constraint.MinProperties, IntLimit(min)).Panic? ==>
        data == old(data) && r == Panicked(SetterMessage(Constraint.MinProperties))
    {
      r := Apply(Constraint.MinProperties, IntLimit(min));
    }

    /** `Default(value)`: stores the coerced value as the default, or panics. */
    method Default(parseFloat: FloatParser, value: Value) returns (r: Chain)
      modifies this
      ensures WithDefault(parseFloat, old(data), value).Stored? ==>
        data == WithDefault(parseFloat, old(data), value).d && r == Returned(this)
      ensures WithDefault(parseFloat, old(data), value).Panic? ==>
        data == old(data) && r == Panicked("invalid default value for type")
    {
      var cast := CastIfNumeric(parseFloat, data, value);
      if cast.Err? {
        return Panicked("invalid default value for type");
      }
      data := data.(defaultValue := cast.value);
      r := Returned(this);
    }

    /** `Validate(value)`: coerce, validate, and map an absent result to nil. Reads `data` only. */
    method Validate(parseFloat: FloatParser, value: Value) returns (r: Result<Value, Error>)
      requires CanValidate(parseFloat, data, value)
      ensures r == ValidateData(parseFloat, data, value)
    {
      var cast := CastIfNumeric(parseFloat, data, value);
      if cast.Err? {
        return Err(cast.error);
      }
      var val := Validators.Validate(data, cast.value);
      if val.Err? {
        return Err(val.error);
      }
      if val.value == Nil {
        return Ok(Nil);
      }
      return Ok(val.value);
    }
  }
}
