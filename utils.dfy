/**
 * The descriptor builder: the descriptor of a Go type (`newSchema`), the descriptor of a struct
 * field with the constraints of its `json` tag (`getField`), the key a field is validated under
 * (`nameOfField`) and the coercion a descriptor applies to a top-level value (`castIfNumeric`).
 */
module Utils {
  import opened Wrappers
  import opened Reflect
  import opened Strings
  import opened Strconv
  import opened Errors
  import opened Descriptors
  import opened Converters

  /** The tag keys the builder recognises, matched exactly, and the constraint each one sets. */
  function KeyOf(key: string): Option<Constraint> {
    if key == "max" || key == "maximum" then Some(Maximum)
    else if key == "min" || key == "minimum" then Some(Minimum)
    else if key == "exclmax" || key == "exclusiveMaximum" then Some(ExclusiveMaximum)
    else if key == "exclmin" || key == "exclusiveMinimum" then Some(ExclusiveMinimum)
    else if key == "maxlen" || key == "maxLength" then Some(MaxLength)
    else if key == "minlen" || key == "minLength" then Some(MinLength)
    else if key == "multof" || key == "multipleOf" then Some(MultipleOf)
    else if key == "maxitems" || key == "maxItems" then Some(MaxItems)
    else if key == "minitems" || key == "minItems" then Some(MinItems)
    else if key == "maxprops" || key == "maxProperties" then Some(MaxProperties)
    else if key == "minprops" || key == "minProperties" then Some(MinProperties)
    else None
  }

  /** A tag value read as a constraint: a float64 for the bounds, an int64 for the others. */
  function ParseLimit(parseFloat: FloatParser, c: Constraint, text: string): (r: Option<Limit>)
    ensures r.Some? ==> Fits(c, r.value)
    ensures IsBound(c) ==> (r.Some? <==> parseFloat(text, 64).Some?)
    ensures IsBound(c) && r.Some? ==> r.value == RealLimit(parseFloat(text, 64).value)
    ensures !IsBound(c) ==> (r.Some? <==> ParseInt(text, 64).Some?)
    ensures !IsBound(c) && r.Some? ==> r.value == IntLimit(ParseInt(text, 64).value)
  {
    if IsBound(c) then
      match ConvertToFloat64(parseFloat, StrV(text))
      case Ok(x) => Some(RealLimit(x))
      case Err(_) => None
    else
      match ConvertToInt64(StrV(text))
      case Ok(n) => Some(IntLimit(n))
      case Err(_) => None
  }

  /** The source indexes the value after `=` of every recognised key; a missing `=` panics. */
  predicate SegmentOk(segment: string) {
    var parts := Split(segment, '=');
    KeyOf(parts[0]).Some? ==> |parts| >= 2
  }

  /**
   * One `key=value` tag segment: a recognised key whose value parses sets its constraint; an
   * unparsable value or an unknown key leaves the descriptor as it is.
   */
  function ApplySegment(parseFloat: FloatParser, d: Descriptor, segment: string): Descriptor
    requires SegmentOk(segment)
  {
    var parts := Split(segment, '=');
    match KeyOf(parts[0])
    case None => d
    case Some(c) =>
      match ParseLimit(parseFloat, c, parts[1])
      case None => d
      case Some(l) => Set(d, c, l)
  }

  /** The segments applied in order, so a later one overwrites what an earlier one set. */
  function ApplySegments(parseFloat: FloatParser, d: Descriptor, segments: seq<string>): Descriptor
    requires forall i :: 0 <= i < |segments| ==> SegmentOk(segments[i])
  {
    if segments == [] then d
    else ApplySegment(parseFloat, ApplySegments(parseFloat, d, segments[..|segments| - 1]), segments[|segments| - 1])
  }

  /**
   * A tag that the builder can read without panicking: a skipped field's tag is never read past
   * its "-", and otherwise every segment after the name must be readable.
   */
  predicate TagOk(tag: string) {
    var segments := Split(tag, ',');
    tag == "" || segments[0] == "-" || forall i :: 1 <= i < |segments| ==> SegmentOk(segments[i])
  }

  /** A tag whose first segment is "-", for which `getField` returns nil. */
  predicate Skipped(tag: string) {
    tag != "" && Split(tag, ',')[0] == "-"
  }

  /** `newSchema` strips exactly one level of pointer. */
  function Unwrap(t: TypeDef): (u: TypeDef)
    ensures u == t || u < t
  {
    if t.Pointer? then t.elem else t
  }

  /**
   * A type the builder can describe without panicking: no struct reached from it has a field
   * tagged "-" (whose nil descriptor the builder dereferences) or a recognised tag key without `=`.
   */
  predicate Buildable(t: TypeDef) {
    match Unwrap(t)
    case StructOf(_, _, fields) =>
      forall i :: 0 <= i < |fields| ==> Buildable(fields[i].typ) && TagOk(fields[i].tag) && !Skipped(fields[i].tag)
    case MapOf(e) => Buildable(e)
    case ListOf(_, e) => Buildable(e)
    case _ => true
  }

  /** `newSchema`: the descriptor of a type, after one pointer level is stripped. */
  function Describe(parseFloat: FloatParser, t: TypeDef): (d: Descriptor)
    requires Buildable(t)
    ensures NoConstraints(d) && d.defaultValue == Nil
    decreases t
  {
    var u := Unwrap(t);
    var s := Blank(KindOfType(u));
    match u
    case StructOf(id, name, fields) =>
      s.(id := id, name := name, typeName := "object", properties := PropertiesOf(parseFloat, u, |fields|))
    case MapOf(e) => s.(typeName := "object", additionalProperties := Some(Describe(parseFloat, e)))
    case ListOf(_, e) => s.(typeName := "array", items := Some(Describe(parseFloat, e)))
    case _ => s.(typeName := Lookup(Types, s.rkind), format := Lookup(Formats, s.rkind))
  }

  /** The `Properties` map after the first `n` fields, each stored under its descriptor's name. */
  function PropertiesOf(parseFloat: FloatParser, t: TypeDef, n: nat): map<string, Descriptor>
    requires t.StructOf? && n <= |t.fields| && Buildable(t)
    decreases t, n
  {
    if n == 0 then map[]
    else
      var f := FieldDescriptor(parseFloat, t.fields[n - 1]).value;
      PropertiesOf(parseFloat, t, n - 1)[f.name := f]
  }

  /**
   * `getField`: the field type's descriptor named after the field, or after the tag's first
   * segment, with the constraints of the remaining segments; `None` for a "-" tag.
   */
  function FieldDescriptor(parseFloat: FloatParser, f: FieldDef): (r: Option<Descriptor>)
    requires Buildable(f.typ) && TagOk(f.tag)
    ensures r.None? <==> Skipped(f.tag)
    decreases f
  {
    var s := Describe(parseFloat, f.typ);
    if f.tag == "" then Some(s.(name := f.name))
    else
      var segments := Split(f.tag, ',');
      if segments[0] == "-" then None
      else Some(ApplySegments(parseFloat, s.(name := segments[0]), segments[1..]))
  }

  /** `nameOfField`: the tag's first segment, or the field's Go name when that is empty. */
  function NameOfField(name: string, tag: string): (r: string)
    ensures r == name || (tag != "" && r == Split(tag, ',')[0])
    ensures name != "" ==> r != ""
  {
    if tag == "" then name
    else
      var segments := Split(tag, ',');
      if segments[0] == "" then name else segments[0]
  }

  /**
   * The lookup key exactly: the tag's first segment when the tag is non-empty and that segment
   * is non-empty, and the Go name otherwise.
   */
  lemma NameOfFieldKey(name: string, tag: string)
    ensures tag != "" && Split(tag, ',')[0] != "" ==> NameOfField(name, tag) == Split(tag, ',')[0]
    ensures tag == "" || Split(tag, ',')[0] == "" ==> NameOfField(name, tag) == name
  {
  }

  /** The kinds whose descriptors coerce a top-level value before validating it. */
  predicate Coerces(k: Kind) {
    k in {Int32, Int64, Float32, Float64, Bool}
  }

  /**
   * `castIfNumeric`: nil passes through; a descriptor of kind int32, int64, float32, float64 or
   * bool converts the value to that kind; any other descriptor leaves the value alone.
   */
  function CastIfNumeric(parseFloat: FloatParser, d: Descriptor, v: Value): (r: Result<Value, Error>)
    ensures v == Nil ==> r == Ok(Nil)
    ensures !Coerces(d.rkind) ==> r == Ok(v)
    ensures v != Nil && Coerces(d.rkind) && r.Ok? ==> KindOf(r.value) == d.rkind
    ensures d.rkind == Int32 && r.Ok? && v != Nil ==> MinInt32 <= r.value.i <= MaxInt32
    ensures v != Nil && d.rkind == Int32 ==>
      && (r.Ok? <==> ConvertToInt32(v).Ok?)
      && (r.Ok? ==> r.value == IntV(Int32, ConvertToInt32(v).value))
      && (r.Err? ==> r.error == ConvertToInt32(v).error)
    ensures v != Nil && d.rkind == Int64 ==>
      && (r.Ok? <==> ConvertToInt64(v).Ok?)
      && (r.Ok? ==> r.value == IntV(Int64, ConvertToInt64(v).value))
      && (r.Err? ==> r.error == ConvertToInt64(v).error)
    ensures v != Nil && d.rkind == Float32 ==>
      && (r.Ok? <==> ConvertToFloat32(parseFloat, v).Ok?)
      && (r.Ok? ==> r.value == FloatV(Float32, ConvertToFloat32(parseFloat, v).value))
      && (r.Err? ==> r.error == ConvertToFloat32(parseFloat, v).error)
    ensures v != Nil && d.rkind == Float64 ==>
      && (r.Ok? <==> ConvertToFloat64(parseFloat, v).Ok?)
      && (r.Ok? ==> r.value == FloatV(Float64, ConvertToFloat64(parseFloat, v).value))
      && (r.Err? ==> r.error == ConvertToFloat64(parseFloat, v).error)
    ensures v != Nil && d.rkind == Bool ==>
      && (r.Ok? <==> ConvertToBool(v).Ok?)
      && (r.Ok? ==> r.value == BoolV(ConvertToBool(v).value))
      && (r.Err? ==> r.error == ConvertToBool(v).error)
  {
    if v == Nil then Ok(v)
    else
      match d.rkind
      case Int32 =>
        (match ConvertToInt32(v) case Ok(n) => Ok(IntV(Int32, n)) case Err(e) => Err(e))
      case Int64 =>
        (match ConvertToInt64(v) case Ok(n) => Ok(IntV(Int64, n)) case Err(e) => Err(e))
      case Float32 =>
        (match ConvertToFloat32(parseFloat, v) case Ok(x) => Ok(FloatV(Float32, x)) case Err(e) => Err(e))
      case Float64 =>
        (match ConvertToFloat64(parseFloat, v) case Ok(x) => Ok(FloatV(Float64, x)) case Err(e) => Err(e))
      case Bool =>
        (match ConvertToBool(v) case Ok(b) => Ok(BoolV(b)) case Err(e) => Err(e))
      case _ => Ok(v)
  }

  /** The key `newSchema` stores a field's descriptor under in `Properties`. */
  function FieldKey(parseFloat: FloatParser, f: FieldDef): string
    requires Buildable(f.typ) && TagOk(f.tag) && !Skipped(f.tag)
  {
    FieldDescriptor(parseFloat, f).value.name
  }

  /** `newSchema`, as the source does it. */
  method NewSchema(parseFloat: FloatParser, t: TypeDef) returns (d: Descriptor)
    requires Buildable(t)
    ensures d == Describe(parseFloat, t)
    decreases t, 1
  {
    var u := Unwrap(t);
    d := Blank(KindOfType(u));
    match u {
      case StructOf(id, name, fields) =>
        var properties := FillProperties(parseFloat, u);
        d := d.(id := id, name := name, typeName := "object", properties := properties);
      case MapOf(e) =>
        var child := NewSchema(parseFloat, e);
        d := d.(typeName := "object", additionalProperties := Some(child));
      case ListOf(_, e) =>
        var child := NewSchema(parseFloat, e);
        d := d.(typeName := "array", items := Some(child));
      case _ =>
        d := d.(typeName := Lookup(Types, d.rkind), format := Lookup(Formats, d.rkind));
    }
  }

  /** The loop of `newSchema` over a struct's fields, storing each descriptor under its name. */
  method FillProperties(parseFloat: FloatParser, t: TypeDef) returns (properties: map<string, Descriptor>)
    requires t.StructOf? && Buildable(t)
    ensures properties == PropertiesOf(parseFloat, t, |t.fields|)
    decreases t, 0
  {
    properties := map[];
    var i := 0;
    while i < |t.fields|
      invariant 0 <= i <= |t.fields|
      invariant properties == PropertiesOf(parseFloat, t, i)
    {
      FieldIsBuildable(t, i);
      var f := GetField(parseFloat, t.fields[i]);
      PropertiesStep(parseFloat, t, i);
      properties := properties[f.value.name := f.value];
      i := i + 1;
    }
  }

  /** A field of a buildable struct is itself buildable, well tagged and not skipped. */
  lemma FieldIsBuildable(t: TypeDef, i: nat)
    requires t.StructOf? && Buildable(t) && i < |t.fields|
    ensures Buildable(t.fields[i].typ) && TagOk(t.fields[i].tag) && !Skipped(t.fields[i].tag)
  {
    assert Unwrap(t) == t;
  }

  /** One more field adds its descriptor under its name. */
  lemma PropertiesStep(parseFloat: FloatParser, t: TypeDef, i: nat)
    requires t.StructOf? && Buildable(t) && i < |t.fields|
    requires Buildable(t.fields[i].typ) && TagOk(t.fields[i].tag) && !Skipped(t.fields[i].tag)
    ensures FieldDescriptor(parseFloat, t.fields[i]).Some?
    ensures PropertiesOf(parseFloat, t, i + 1)
      == PropertiesOf(parseFloat, t, i)[FieldDescriptor(parseFloat, t.fields[i]).value.name := FieldDescriptor(parseFloat, t.fields[i]).value]
  {
  }

  /** `getField`, as the source does it. */
  method GetField(parseFloat: FloatParser, f: FieldDef) returns (r: Option<Descriptor>)
    requires Buildable(f.typ) && TagOk(f.tag)
    ensures r == FieldDescriptor(parseFloat, f)
    decreases f, 2
  {
    var s := NewSchema(parseFloat, f.typ);
    if f.tag == "" {
      return Some(s.(name := f.name));
    }
    var segments := Split(f.tag, ',');
    if segments[0] == "-" {
      return None;
    }
    s := ApplyTag(parseFloat, s.(name := segments[0]), segments[1..]);
    return Some(s);
  }

  /** The loop of `getField` over the segments after the name, applying them one by one. */
  method ApplyTag(parseFloat: FloatParser, d: Descriptor, segments: seq<string>) returns (s: Descriptor)
    requires forall i :: 0 <= i < |segments| ==> SegmentOk(segments[i])
    ensures s == ApplySegments(parseFloat, d, segments)
  {
    s := d;
    var j := 0;
    while j < |segments|
      invariant 0 <= j <= |segments|
      invariant s == ApplySegments(parseFloat, d, segments[..j])
    {
      assert segments[..j + 1][..j] == segments[..j];
      s := ApplySegment(parseFloat, s, segments[j]);
      j := j + 1;
    }
    assert segments[..j] == segments;
  }

  /** Every field's key is in the struct's `Properties`. */
  lemma {:induction false} PropertiesHaveEveryKey(parseFloat: FloatParser, t: TypeDef, n: nat)
    requires t.StructOf? && n <= |t.fields| && Buildable(t)
    ensures forall i :: 0 <= i < n ==> FieldKey(parseFloat, t.fields[i]) in PropertiesOf(parseFloat, t, n)
  {
    if n > 0 {
      PropertiesHaveEveryKey(parseFloat, t, n - 1);
    }
  }

  /** The struct's `Properties` hold no key but the fields' keys. */
  lemma {:induction false} PropertiesHaveOnlyKeys(parseFloat: FloatParser, t: TypeDef, n: nat, k: string)
    requires t.StructOf? && n <= |t.fields| && Buildable(t)
    requires k in PropertiesOf(parseFloat, t, n)
    ensures exists i :: 0 <= i < n && FieldKey(parseFloat, t.fields[i]) == k
  {
    if k != FieldKey(parseFloat, t.fields[n - 1]) {
      PropertiesHaveOnlyKeys(parseFloat, t, n - 1, k);
    }
  }

  /** The descriptors of the first `n` fields, in field order. */
  function FieldDescriptors(parseFloat: FloatParser, t: TypeDef, n: nat): (ds: seq<Descriptor>)
    requires t.StructOf? && n <= |t.fields| && Buildable(t)
    ensures |ds| == n
  {
    if n == 0 then []
    else FieldDescriptors(parseFloat, t, n - 1) + [FieldDescriptor(parseFloat, t.fields[n - 1]).value]
  }

  /** Each descriptor stored under its name, a later one replacing an earlier one of the same name. */
  function ByName(ds: seq<Descriptor>): map<string, Descriptor> {
    if ds == [] then map[]
    else ByName(ds[..|ds| - 1])[ds[|ds| - 1].name := ds[|ds| - 1]]
  }

  /** A descriptor whose name no later one repeats is the one stored under that name. */
  lemma {:induction false} ByNameKeepsLast(ds: seq<Descriptor>, i: nat)
    requires i < |ds| && forall j :: i < j < |ds| ==> ds[j].name != ds[i].name
    ensures ds[i].name in ByName(ds) && ByName(ds)[ds[i].name] == ds[i]
  {
    if i < |ds| - 1 {
      var front := ds[..|ds| - 1];
      assert forall j :: i < j < |front| ==> front[j] == ds[j];
      ByNameKeepsLast(front, i);
    }
  }

  /** Entry `j` of the field descriptors is field `j`'s descriptor. */
  lemma {:induction false} FieldDescriptorsAt(parseFloat: FloatParser, t: TypeDef, n: nat, j: nat)
    requires t.StructOf? && j < n <= |t.fields| && Buildable(t)
    ensures FieldDescriptors(parseFloat, t, n)[j] == FieldDescriptor(parseFloat, t.fields[j]).value
    decreases n
  {
    if j < n - 1 {
      FieldDescriptorsAt(parseFloat, t, n - 1, j);
    }
  }

  /** The struct's `Properties` are its field descriptors stored by name. */
  lemma {:induction false} PropertiesAreByName(parseFloat: FloatParser, t: TypeDef, n: nat)
    requires t.StructOf? && n <= |t.fields| && Buildable(t)
    ensures PropertiesOf(parseFloat, t, n) == ByName(FieldDescriptors(parseFloat, t, n))
  {
    if n > 0 {
      PropertiesAreByName(parseFloat, t, n - 1);
      var ds := FieldDescriptors(parseFloat, t, n);
      var last := FieldDescriptor(parseFloat, t.fields[n - 1]).value;
      assert ds == FieldDescriptors(parseFloat, t, n - 1) + [last];
      assert ds[..n - 1] == FieldDescriptors(parseFloat, t, n - 1);
      assert ByName(ds) == ByName(ds[..n - 1])[last.name := last];
    }
  }

  /** A key maps to the descriptor of the last field stored under it. */
  lemma PropertiesKeepLastField(parseFloat: FloatParser, t: TypeDef, n: nat, i: nat)
    requires t.StructOf? && i < n <= |t.fields| && Buildable(t)
    requires forall j :: i < j < n ==> FieldKey(parseFloat, t.fields[j]) != FieldKey(parseFloat, t.fields[i])
    ensures FieldKey(parseFloat, t.fields[i]) in PropertiesOf(parseFloat, t, n)
    ensures PropertiesOf(parseFloat, t, n)[FieldKey(parseFloat, t.fields[i])] == FieldDescriptor(parseFloat, t.fields[i]).value
  {
    var ds := FieldDescriptors(parseFloat, t, n);
    PropertiesAreByName(parseFloat, t, n);
    FieldDescriptorsAt(parseFloat, t, n, i);
    forall j | i < j < n
      ensures ds[j].name != ds[i].name
    {
      FieldDescriptorsAt(parseFloat, t, n, j);
    }
    ByNameKeepsLast(ds, i);
  }

  /**
   * `newSchema` on a struct gives an "object" of kind struct, named after the type, whose
   * `Properties` hold exactly the fields' keys, each (for distinct keys) with that field's
   * descriptor.
   */
  lemma DescribeStruct(parseFloat: FloatParser, t: TypeDef)
    requires t.StructOf? && Buildable(t)
    ensures var d := Describe(parseFloat, t);
      && d.typeName == "object" && d.rkind == Struct && d.id == t.id && d.name == t.name
      && d.additionalProperties.None? && d.items.None?
      && (forall i :: 0 <= i < |t.fields| ==> FieldKey(parseFloat, t.fields[i]) in d.properties)
      && (forall k :: k in d.properties ==> exists i :: 0 <= i < |t.fields| && FieldKey(parseFloat, t.fields[i]) == k)
      && (forall i :: 0 <= i < |t.fields| && (forall j :: 0 <= j < |t.fields| && j != i ==> FieldKey(parseFloat, t.fields[j]) != FieldKey(parseFloat, t.fields[i])) ==>
            d.properties[FieldKey(parseFloat, t.fields[i])] == FieldDescriptor(parseFloat, t.fields[i]).value)
  {
    var n := |t.fields|;
    var p := PropertiesOf(parseFloat, t, n);
    PropertiesHaveEveryKey(parseFloat, t, n);
    forall k | k in p
      ensures exists i :: 0 <= i < n && FieldKey(parseFloat, t.fields[i]) == k
    {
      PropertiesHaveOnlyKeys(parseFloat, t, n, k);
    }
    forall i | 0 <= i < n && (forall j :: 0 <= j < n && j != i ==> FieldKey(parseFloat, t.fields[j]) != FieldKey(parseFloat, t.fields[i]))
      ensures p[FieldKey(parseFloat, t.fields[i])] == FieldDescriptor(parseFloat, t.fields[i]).value
    {
      PropertiesKeepLastField(parseFloat, t, n, i);
    }
    assert Unwrap(t) == t;
    assert Describe(parseFloat, t).properties == p;
  }

  /** `newSchema` sets no constraint and no default, and its kind is the unwrapped type's. */
  lemma DescribeIsUnconstrained(parseFloat: FloatParser, t: TypeDef, c: Constraint)
    requires Buildable(t)
    ensures Describe(parseFloat, t).rkind == KindOfType(Unwrap(t))
    ensures Describe(parseFloat, t).defaultValue == Nil
    ensures Get(Describe(parseFloat, t), c).None?
  {
    var d := Describe(parseFloat, t);
    UnconstrainedGetsNothing(d, c);
    assert d.rkind == Blank(KindOfType(Unwrap(t))).rkind;
  }

  /**
   * `newSchema` on any other type: a map gives an "object" whose `AdditionalProperties` describe
   * the element type, a slice or array an "array" whose `Items` describe it, and a scalar (or a
   * second pointer level) the `types` and `formats` entries of its kind with no children.
   */
  lemma DescribeShape(parseFloat: FloatParser, t: TypeDef)
    requires Buildable(t) && !Unwrap(t).StructOf?
    ensures var d := Describe(parseFloat, t);
      match Unwrap(t)
      case MapOf(e) => d.typeName == "object" && d.additionalProperties == Some(Describe(parseFloat, e))
                       && d.items.None? && d.properties == map[]
      case ListOf(_, e) => d.typeName == "array" && d.items == Some(Describe(parseFloat, e))
                           && d.additionalProperties.None? && d.properties == map[]
      case _ => d.typeName == Lookup(Types, d.rkind) && d.format == Lookup(Formats, d.rkind)
                && d.properties == map[] && d.additionalProperties.None? && d.items.None?
  {
  }

  /** Exactly one pointer level is stripped: `*T` describes like `T`, but `**T` is a pointer leaf. */
  lemma DescribeStripsOnePointer(parseFloat: FloatParser, t: TypeDef)
    requires Buildable(Pointer(t))
    ensures !t.Pointer? ==> Buildable(t) && Describe(parseFloat, Pointer(t)) == Describe(parseFloat, t)
    ensures t.Pointer? ==> Describe(parseFloat, Pointer(t)).rkind == Ptr && Describe(parseFloat, Pointer(t)).typeName == ""
  {
    assert Unwrap(Pointer(t)) == t;
    if !t.Pointer? {
      assert Unwrap(t) == t;
    }
  }

  /** A scalar type's descriptor carries the kind's entries of the type and format tables. */
  lemma DescribeScalar(parseFloat: FloatParser, k: ScalarKind)
    ensures Describe(parseFloat, Prim(k)) == Blank(k).(typeName := Lookup(Types, k), format := Lookup(Formats, k))
  {
  }

  /** The type and format tables at the six kinds that have a leaf constructor. */
  lemma LeafTableEntries()
    ensures Lookup(Types, String) == "string" && Lookup(Formats, String) == ""
    ensures Lookup(Types, Int32) == "integer" && Lookup(Formats, Int32) == "int32"
    ensures Lookup(Types, Int64) == "integer" && Lookup(Formats, Int64) == "int64"
    ensures Lookup(Types, Float32) == "number" && Lookup(Formats, Float32) == "float"
    ensures Lookup(Types, Float64) == "number" && Lookup(Formats, Float64) == "double"
    ensures Lookup(Types, Bool) == "boolean" && Lookup(Formats, Bool) == ""
  {
  }

  /** Each leaf constructor builds the same descriptor as the builder does for its Go type. */
  lemma LeafSchemasMatchBuilder(parseFloat: FloatParser)
    ensures Describe(parseFloat, Prim(String)) == StringSchema()
    ensures Describe(parseFloat, Prim(Int32)) == Int32Schema()
    ensures Describe(parseFloat, Prim(Int64)) == Int64Schema()
    ensures Describe(parseFloat, Prim(Float32)) == Float32Schema()
    ensures Describe(parseFloat, Prim(Float64)) == Float64Schema()
    ensures Describe(parseFloat, Prim(Bool)) == BooleanSchema()
  {
    LeafTableEntries();
    DescribeScalar(parseFloat, String);
    DescribeScalar(parseFloat, Int32);
    DescribeScalar(parseFloat, Int64);
    DescribeScalar(parseFloat, Float32);
    DescribeScalar(parseFloat, Float64);
    DescribeScalar(parseFloat, Bool);
  }

  /** Go's plain `int` is an "integer" without a format. */
  lemma PlainIntHasNoFormat(parseFloat: FloatParser)
    ensures Describe(parseFloat, Prim(Int)).typeName == "integer"
    ensures Describe(parseFloat, Prim(Int)).format == ""
    ensures Describe(parseFloat, Prim(Int)).rkind == Int
  {
  }

  /** The limit the last segment that sets `c` with a parsable value gives it, if any. */
  function LastSetting(parseFloat: FloatParser, c: Constraint, segments: seq<string>): (r: Option<Limit>)
    requires forall i :: 0 <= i < |segments| ==> SegmentOk(segments[i])
    ensures r.Some? ==> Fits(c, r.value)
  {
    if segments == [] then None
    else
      var parts := Split(segments[|segments| - 1], '=');
      assert SegmentOk(segments[|segments| - 1]);
      if KeyOf(parts[0]) == Some(c) && ParseLimit(parseFloat, c, parts[1]).Some? then ParseLimit(parseFloat, c, parts[1])
      else LastSetting(parseFloat, c, segments[..|segments| - 1])
  }

  /**
   * One segment changes at most the constraint its key names, and never the names, kind or
   * children. A recognised key whose value parses sets its constraint whatever the descriptor's
   * type name (tags are not kind-gated); an unparsable value or an unknown key changes nothing.
   */
  lemma SegmentSetsOnlyItsConstraint(parseFloat: FloatParser, d: Descriptor, segment: string, c: Constraint)
    requires SegmentOk(segment)
    ensures Shape(ApplySegment(parseFloat, d, segment)) == Shape(d)
    ensures var parts := Split(segment, '=');
      Get(ApplySegment(parseFloat, d, segment), c) ==
        if KeyOf(parts[0]) == Some(c) && ParseLimit(parseFloat, c, parts[1]).Some? then ParseLimit(parseFloat, c, parts[1])
        else Get(d, c)
  {
    var parts := Split(segment, '=');
    match KeyOf(parts[0])
    case None =>
    case Some(k) =>
      match ParseLimit(parseFloat, k, parts[1])
      case None =>
      case Some(l) => SetChangesOnlyItsConstraint(d, k, l, c);
  }

  /**
   * Applying a tag's segments keeps the descriptor's shape, and each constraint ends up with the
   * value of the last segment that sets it, or keeps its earlier value when none does.
   */
  lemma {:induction false} SegmentsSetLastSetting(parseFloat: FloatParser, d: Descriptor, segments: seq<string>, c: Constraint)
    requires forall i :: 0 <= i < |segments| ==> SegmentOk(segments[i])
    ensures Shape(ApplySegments(parseFloat, d, segments)) == Shape(d)
    ensures Get(ApplySegments(parseFloat, d, segments), c) ==
      if LastSetting(parseFloat, c, segments).Some? then LastSetting(parseFloat, c, segments) else Get(d, c)
  {
    if segments != [] {
      var init := segments[..|segments| - 1];
      SegmentsSetLastSetting(parseFloat, d, init, c);
      SegmentSetsOnlyItsConstraint(parseFloat, ApplySegments(parseFloat, d, init), segments[|segments| - 1], c);
    }
  }

  /** Keys are matched exactly: other spellings and unknown keys such as `required` set nothing. */
  lemma KeysAreCaseSensitive()
    ensures KeyOf("max") == KeyOf("maximum") == Some(Maximum)
    ensures KeyOf("Max") == KeyOf("maxlength") == KeyOf("required") == None
  {
  }

  /** A tag key spelled as the constraint's JSON property name sets that constraint. */
  lemma JsonNamesAreKeys(c: Constraint)
    ensures KeyOf(JsonName(c)) == Some(c)
  {
  }

  /** A field without a tag is described by its type, named after the field, with no constraint. */
  lemma UntaggedField(parseFloat: FloatParser, f: FieldDef)
    requires Buildable(f.typ) && f.tag == ""
    ensures FieldDescriptor(parseFloat, f) == Some(Describe(parseFloat, f.typ).(name := f.name))
    ensures forall c :: Get(FieldDescriptor(parseFloat, f).value, c).None?
  {
    forall c {
      DescribeIsUnconstrained(parseFloat, f.typ, c);
    }
  }

  /**
   * The key validation looks a field up under is the key the builder stored it under, except
   * when the tag's first segment is empty: the builder then names the descriptor "" while
   * validation looks for the field's Go name.
   */
  lemma LookupKeyMatchesStoredKey(parseFloat: FloatParser, f: FieldDef)
    requires Buildable(f.typ) && TagOk(f.tag) && !Skipped(f.tag)
    ensures f.tag == "" || Split(f.tag, ',')[0] != "" ==> NameOfField(f.name, f.tag) == FieldKey(parseFloat, f)
    ensures f.tag != "" && Split(f.tag, ',')[0] == "" ==> FieldKey(parseFloat, f) == ""
  {
    if f.tag != "" {
      var segments := Split(f.tag, ',');
      var named := Describe(parseFloat, f.typ).(name := segments[0]);
      SegmentsSetLastSetting(parseFloat, named, segments[1..], Maximum);
      var s := ApplySegments(parseFloat, named, segments[1..]);
      assert FieldDescriptor(parseFloat, f) == Some(s);
      assert s.name == Shape(s).name == named.name;
    }
  }

  /** Coercion is idempotent: a coerced value coerces to itself. */
  lemma CastIsIdempotent(parseFloat: FloatParser, d: Descriptor, v: Value)
    requires CastIfNumeric(parseFloat, d, v).Ok?
    ensures CastIfNumeric(parseFloat, d, CastIfNumeric(parseFloat, d, v).value) == CastIfNumeric(parseFloat, d, v)
  {
  }

  /** A decimal numeral coerces exactly as the number it spells, at either integer width. */
  lemma CastFormattedInteger(parseFloat: FloatParser, d: Descriptor, n: int)
    requires || (d.rkind == Int32 && MinInt32 <= n <= MaxInt32)
             || (d.rkind == Int64 && MinInt64 <= n <= MaxInt64)
    ensures CastIfNumeric(parseFloat, d, StrV(FormatInt(n))) == CastIfNumeric(parseFloat, d, IntV(Int64, n))
    ensures CastIfNumeric(parseFloat, d, IntV(Int64, n)) == Ok(IntV(d.rkind, n))
  {
    var b: BitSize := if d.rkind == Int32 then 32 else 64;
    ParseFormatInt(n, b);
    TextAgreesWithNumber(FormatInt(n), n, b);
  }

  /** A boolean's spelling coerces to that boolean. */
  lemma CastFormattedBool(parseFloat: FloatParser, d: Descriptor, b: bool)
    requires d.rkind == Bool
    ensures CastIfNumeric(parseFloat, d, StrV(FormatBool(b))) == CastIfNumeric(parseFloat, d, BoolV(b)) == Ok(BoolV(b))
  {
    ParseFormatBool(b);
  }

  /** A tag value spelling an int64 sets a count, length or multiple constraint to that number. */
  lemma ParseLimitFormatInt(parseFloat: FloatParser, c: Constraint, n: int)
    requires !IsBound(c) && MinInt64 <= n <= MaxInt64
    ensures ParseLimit(parseFloat, c, FormatInt(n)) == Some(IntLimit(n))
  {
    ParseFormatInt(n, 64);
  }
}
