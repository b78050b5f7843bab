/**
 * The schema descriptor: one node of the constraint tree, with its optional constraints,
 * the process-wide `types` and `formats` tables, and the leaf descriptors the library hands out.
 */
module Descriptors {
  import opened Wrappers
  import opened Reflect

  /**
   * A descriptor node (the source's `schema` record). Every constraint is `None` until set; a
   * `defaultValue` of `Nil` means no default. `rkind` is the Go kind values must have.
   */
  datatype Descriptor = Descriptor(
    id: string,
    name: string,
    typeName: string,
    properties: map<string, Descriptor>,
    additionalProperties: Option<Descriptor>,
    items: Option<Descriptor>,
    format: string,
    defaultValue: Value,
    maximum: Option<real>,
    exclusiveMaximum: Option<real>,
    minimum: Option<real>,
    exclusiveMinimum: Option<real>,
    multipleOf: Option<int>,
    maxLength: Option<int>,
    minLength: Option<int>,
    minItems: Option<int>,
    maxItems: Option<int>,
    minProperties: Option<int>,
    maxProperties: Option<int>,
    rkind: Kind)

  /** The `types` table: the interchange type name of each kind ("" for a kind it omits). */
  const Types: map<Kind, string> := map[
    Int := "integer", Int8 := "integer", Int16 := "integer", Int32 := "integer", Int64 := "integer",
    Uint := "integer", Uint8 := "integer", Uint16 := "integer", Uint32 := "integer", Uint64 := "integer",
    Float32 := "number", Float64 := "number",
    Bool := "boolean",
    String := "string",
    Interface := "object", Map := "object", Struct := "object",
    Slice := "array", Array := "array"]

  /** The `formats` table: the format label of the four sized numeric kinds. */
  const Formats: map<Kind, string> := map[
    Int32 := "int32", Int64 := "int64", Float32 := "float", Float64 := "double"]

  /** A Go map read with the zero value for a missing key. */
  function Lookup(table: map<Kind, string>, k: Kind): string {
    if k in table then table[k] else ""
  }

  /** A descriptor with only its kind set. */
  function Blank(k: Kind): Descriptor {
    Descriptor("", "", "", map[], None, None, "", Nil,
               None, None, None, None, None, None, None, None, None, None, None, k)
  }

  /** No constraint, default or child is set. */
  predicate Unconstrained(d: Descriptor) {
    && d.properties == map[] && d.additionalProperties.None? && d.items.None?
    && d.defaultValue == Nil
    && d.maximum.None? && d.exclusiveMaximum.None? && d.minimum.None? && d.exclusiveMinimum.None?
    && d.multipleOf.None? && d.maxLength.None? && d.minLength.None?
    && d.minItems.None? && d.maxItems.None? && d.minProperties.None? && d.maxProperties.None?
  }

  /** None of the eleven constraints is set. */
  predicate NoConstraints(d: Descriptor) {
    && d.maximum.None? && d.exclusiveMaximum.None? && d.minimum.None? && d.exclusiveMinimum.None?
    && d.multipleOf.None? && d.maxLength.None? && d.minLength.None?
    && d.minItems.None? && d.maxItems.None? && d.minProperties.None? && d.maxProperties.None?
  }

  /** The eleven optional constraints of a descriptor. */
  datatype Constraint =
    | Maximum | ExclusiveMaximum | Minimum | ExclusiveMinimum | MultipleOf
    | MaxLength | MinLength | MaxItems | MinItems | MaxProperties | MinProperties

  /** The JSON property name of each constraint, from the descriptor record's field tags. */
  function JsonName(c: Constraint): string {
    match c
    case Maximum => "maximum"
    case ExclusiveMaximum => "exclusiveMaximum"
    case Minimum => "minimum"
    case ExclusiveMinimum => "exclusiveMinimum"
    case MultipleOf => "multipleOf"
    case MaxLength => "maxLength"
    case MinLength => "minLength"
    case MaxItems => "maxItems"
    case MinItems => "minItems"
    case MaxProperties => "maxProperties"
    case MinProperties => "minProperties"
  }

  /** The four numeric bounds hold a float64; the other constraints hold an integer. */
  predicate IsBound(c: Constraint) {
    c in {Maximum, ExclusiveMaximum, Minimum, ExclusiveMinimum}
  }

  datatype Limit = RealLimit(r: real) | IntLimit(n: int)

  predicate Fits(c: Constraint, l: Limit) {
    if IsBound(c) then l.RealLimit? else l.IntLimit?
  }

  /** The value of one constraint, if set. */
  function Get(d: Descriptor, c: Constraint): (r: Option<Limit>)
    ensures r.Some? ==> Fits(c, r.value)
  {
    match c
    case Maximum => if d.maximum.Some? then Some(RealLimit(d.maximum.value)) else None
    case ExclusiveMaximum => if d.exclusiveMaximum.Some? then Some(RealLimit(d.exclusiveMaximum.value)) else None
    case Minimum => if d.minimum.Some? then Some(RealLimit(d.minimum.value)) else None
    case ExclusiveMinimum => if d.exclusiveMinimum.Some? then Some(RealLimit(d.exclusiveMinimum.value)) else None
    case MultipleOf => if d.multipleOf.Some? then Some(IntLimit(d.multipleOf.value)) else None
    case MaxLength => if d.maxLength.Some? then Some(IntLimit(d.maxLength.value)) else None
    case MinLength => if d.minLength.Some? then Some(IntLimit(d.minLength.value)) else None
    case MaxItems => if d.maxItems.Some? then Some(IntLimit(d.maxItems.value)) else None
    case MinItems => if d.minItems.Some? then Some(IntLimit(d.minItems.value)) else None
    case MaxProperties => if d.maxProperties.Some? then Some(IntLimit(d.maxProperties.value)) else None
    case MinProperties => if d.minProperties.Some? then Some(IntLimit(d.minProperties.value)) else None
  }

  /** Everything but the constraints: kind, names, children and default. */
  function Shape(d: Descriptor): Descriptor {
    d.(maximum := None, exclusiveMaximum := None, minimum := None, exclusiveMinimum := None,
       multipleOf := None, maxLength := None, minLength := None, maxItems := None, minItems := None,
       maxProperties := None, minProperties := None)
  }

  /** Stores one constraint. */
  function Set(d: Descriptor, c: Constraint, l: Limit): Descriptor
    requires Fits(c, l)
  {
    match c
    case Maximum => d.(maximum := Some(l.r))
    case ExclusiveMaximum => d.(exclusiveMaximum := Some(l.r))
    case Minimum => d.(minimum := Some(l.r))
    case ExclusiveMinimum => d.(exclusiveMinimum := Some(l.r))
    case MultipleOf => d.(multipleOf := Some(l.n))
    case MaxLength => d.(maxLength := Some(l.n))
    case MinLength => d.(minLength := Some(l.n))
    case MaxItems => d.(maxItems := Some(l.n))
    case MinItems => d.(minItems := Some(l.n))
    case MaxProperties => d.(maxProperties := Some(l.n))
    case MinProperties => d.(minProperties := Some(l.n))
  }

  /** Storing a constraint sets exactly that constraint and leaves everything else as it was. */
  lemma SetChangesOnlyItsConstraint(d: Descriptor, c: Constraint, l: Limit, other: Constraint)
    requires Fits(c, l)
    ensures Get(Set(d, c, l), c) == Some(l)
    ensures other != c ==> Get(Set(d, c, l), other) == Get(d, other)
    ensures Shape(Set(d, c, l)) == Shape(d)
  {
  }

  /** The type name a fluent setter demands before it stores a constraint. */
  predicate Admits(typeName: string, c: Constraint) {
    match c
    case Maximum | ExclusiveMaximum | Minimum | ExclusiveMinimum => typeName == "integer" || typeName == "number"
    case MultipleOf => typeName == "integer"
    case MaxLength | MinLength => typeName == "string"
    case MaxItems | MinItems => typeName == "array"
    case MaxProperties | MinProperties => typeName == "object"
  }

  /** Every constraint that is set suits the descriptor's type name, as the fluent setters demand. */
  predicate KindCompatible(d: Descriptor) {
    forall c :: Get(d, c).Some? ==> Admits(d.typeName, c)
  }

  /** A descriptor with no constraint set reports none. */
  lemma UnconstrainedGetsNothing(d: Descriptor, c: Constraint)
    requires NoConstraints(d)
    ensures Get(d, c).None?
  {
  }

  /** `String()`. */
  function StringSchema(): Descriptor {
    Blank(String).(typeName := "string")
  }

  /** `Int32()`. */
  function Int32Schema(): Descriptor {
    Blank(Int32).(typeName := "integer", format := "int32")
  }

  /** `Int64()`. */
  function Int64Schema(): Descriptor {
    Blank(Int64).(typeName := "integer", format := "int64")
  }

  /** `Float32()`. */
  function Float32Schema(): Descriptor {
    Blank(Float32).(typeName := "number", format := "float")
  }

  /** `Float64()`. */
  function Float64Schema(): Descriptor {
    Blank(Float64).(typeName := "number", format := "double")
  }

  /** `Boolean()`. */
  function BooleanSchema(): Descriptor {
    Blank(Bool).(typeName := "boolean")
  }
}
