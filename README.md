# gskma in Dafny

A model of gskma, a Go library that describes Go types as JSON-Schema-like descriptors and
validates values against them. The model covers:

- the schema descriptor record with its optional constraints;
- the `types` and `formats` tables;
- the leaf constructors `String`, `Int32`, `Int64`, `Float32`, `Float64` and `Boolean`;
- the eleven kind-gated fluent setters, `Default` and `Validate` of `Schema`;
- the builder `newSchema`, which derives a descriptor from a Go type;
- `getField`, which reads a struct field's `json` tag into constraints;
- `nameOfField` and `castIfNumeric`;
- the fail-fast validator over strings, numbers, maps, structs, slices and arrays;
- the conversions to int64, int32, float64, float32 and bool.

Go's reflection is replaced by datatypes. `Reflect.TypeDef` stands for a Go type.
`Reflect.Value` stands for a Go value. Both are closed trees.

Modules, one per concern:

- `Wrappers`: the `Option` and `Result` types.
- `Reflect`: kinds, types and values.
- `Strings`: `strings.Split` and `strings.Join`.
- `Strconv`: `strconv.ParseInt`, `FormatInt`, `ParseBool` and `FormatBool`.
- `Errors`: one constructor per error message of the library.
- `Descriptors`: the descriptor record, the two tables and the leaf descriptors.
- `Converters`: converters.go.
- `Utils`: utils.go.
- `Validators`: validators.go.
- `Gskma`: gskma.go, with the `Schema` class.

Go panics are handled in two ways:

- A panic that a caller provokes through configuration (a setter on the wrong kind, a default
  that does not coerce) is an explicit outcome: `Chain.Panicked(message)`. The descriptor is
  left unchanged.
- A runtime panic inside the builder or the validator becomes an exact precondition:
  `Utils.Buildable` and `Utils.TagOk` for the builder, `Validators.Safe` and
  `Gskma.CanValidate` for the validator. `Safe` follows the fail-fast walk, so a child that the
  walk never reaches (because an earlier one failed) cannot cause a panic.

Behaviour of the code that the model keeps, including where it panics or surprises:

- `getField` returns nil for a field whose tag's first segment is exactly `-`, and `newSchema`
  then dereferences that nil (utils.go:18-20, 106-107), which panics. `Buildable` excludes such
  fields. A tag such as `-x` is not affected: it names the field `-x`.
- Validating a struct looks each field up in `Properties` and passes the result to `validate`
  (validators.go:92-96); for a present value `validate` dereferences the nil schema when it
  reads the kind (validators.go:20), and for an absent one when it reads the default
  (validators.go:16), so a field with no entry
  panics. This happens, for instance, when a
  tag's first segment is empty: `nameOfField` then falls back to the Go name, while the builder
  stored the field under "". `Safe` excludes it, and `Utils.LookupKeyMatchesStoredKey` states
  exactly when the two keys agree.
- `validate` checks constraints only for strings, int32 and int64, float32 and float64, maps,
  structs and lists (validators.go:24-37). A value of any other kind, such as a plain `int`,
  comes back unchanged (`Validators.OtherKindsPass`), even when tags stored numeric constraints
  for it.
- Tag keys are matched exactly by the `switch` in `getField` (`Utils.KeyOf`), so `Max` or
  `maxlength` sets nothing.
- Boolean text goes through `strconv.ParseBool`, which accepts exactly `1`, `t`, `T`, `TRUE`,
  `true`, `True` and `0`, `f`, `F`, `FALSE`, `false`, `False`.
- The fluent setters check the type name before storing a constraint
  (`Gskma.ConfigureKeepsKindCompatible`), but tag constraints are stored whatever the type name
  (`Utils.SegmentSetsOnlyItsConstraint`).

## Model

| member | source | states |
|---|---|---|
| `Strings.Split` | utils.go:17 | every piece is free of the separator; a string without the separator is one piece |
| `Strings.JoinSplit` | utils.go:17 | joining the pieces of a split with the separator gives back the string |
| `Strings.SplitJoin` | utils.go:25 | splitting a join of separator-free pieces gives back the pieces |
| `Strconv.ParseInt` | converters.go:13 | a parsed integer lies in the signed range of the bit size, and the text is an optional sign followed only by decimal digits |
| `Strconv.ParseUnsigned` | converters.go:13 | unsigned digits parse to the number they denote when it fits the width, and are rejected otherwise |
| `Strconv.ParseSigned` | converters.go:13 | after `+` the digits' number, after `-` its negation, when it fits the width, and rejected otherwise |
| `Strconv.FormatIntOutOfRange` | converters.go:13 | the decimal spelling of an integer outside the width is rejected |
| `Strconv.LeadingZerosAddNothing` | converters.go:13 | leading zeros do not change the number a run of digits denotes |
| `Strconv.LeadingZeros` | converters.go:13 | digits with leading zeros parse as the number's shortest spelling does |
| `Strconv.PlusSign` | converters.go:13 | an explicit `+` before zero-padded digits parses as the unsigned spelling does |
| `Strconv.MinusSign` | converters.go:13 | a `-` before zero-padded digits parses as `FormatInt` of the negated number does |
| `Strconv.ParseFormatInt` | converters.go:13 | every integer of the width parses back from its decimal spelling |
| `Strconv.ParseFormatBool` | converters.go:84 | ParseBool inverts FormatBool |
| `Strconv.ParseBool` | converters.go:84 | text is accepted exactly when it is one of the twelve spellings of true and false, and its first character alone decides the value: `1`, `t` or `T` for true |
| `Descriptors.SetChangesOnlyItsConstraint` | gskma.go:94-200 | storing a constraint sets exactly that constraint; the other constraints and the rest of the descriptor are unchanged |
| `Converters.ToInt32` | converters.go:42 | Go's int32 conversion lands in the int32 range, is congruent to its input modulo 2^32, and is the identity on the range |
| `Converters.ConvertToInt` | converters.go:8-31 | text is accepted exactly as ParseInt accepts it; every signed integer kind keeps its value; unsigned, float, bool and other sources fail; every failure says "boolean" |
| `Converters.ConvertToInt64` | converters.go:33-35 | succeeds exactly when the 64-bit conversion does, within the int64 range |
| `Converters.ConvertToInt32` | converters.go:37-43 | results lie in the int32 range; text is range-checked at 32 bits; a signed integer wraps modulo 2^32; it fails exactly when the 32-bit conversion fails, always reporting "boolean" |
| `Converters.ConvertToFloat` | converters.go:45-66 | a float keeps its value; text succeeds exactly when ParseFloat does; every other source, integers included, fails with "float" or "double" |
| `Converters.ConvertToFloat64` | converters.go:68-70 | an integer source is rejected with "double" |
| `Converters.ConvertToFloat32` | converters.go:72-78 | an integer source is rejected with "float" |
| `Converters.ConvertToBool` | converters.go:80-94 | a bool passes; text succeeds exactly when ParseBool does; any other source fails with "boolean" |
| `Converters.TextAgreesWithNumber` | converters.go:8-43 | text that parses to n converts exactly as the int64 n does, at both widths |
| `Converters.Int32TextIsCheckedNumberWraps` | converters.go:37-43 | the text 2147483648 is rejected for int32, while the int64 2147483648 wraps to -2147483648 |
| `Utils.ParseLimit` | utils.go:28-87 | a bound is set exactly when ParseFloat accepts the value, to the parsed float64; any other constraint exactly when ParseInt accepts it at 64 bits, to the parsed integer |
| `Utils.ParseLimitFormatInt` | utils.go:47-87 | a count, length or multiple given as the decimal spelling of an int64 is set to that number |
| `Utils.JsonNamesAreKeys` | utils.go:26-87 | `KeyOf` recognises each constraint's JSON property name (gskma.go:47-57) as a key for that constraint |
| `Utils.Describe` | utils.go:93-124 | the builder's descriptor carries no constraint and no default |
| `Utils.FieldDescriptor` | utils.go:8-91 | a field has no descriptor exactly when its tag's first segment is "-" |
| `Utils.NewSchema` | utils.go:93-124 | the builder, written as the source's loop and recursion, computes `Describe` |
| `Utils.FillProperties` | utils.go:104-111 | the loop over a struct's fields builds the `Properties` of the first n fields, each under its descriptor's name |
| `Utils.GetField` | utils.go:8-91 | a field's descriptor is the descriptor of its type, named by the tag's first segment (or the Go field name when the tag is empty) and refined by the remaining segments; none when the first segment is "-" |
| `Utils.ApplyTag` | utils.go:24-89 | the loop over the remaining tag segments applies each recognised `key=value` in order, so a later setting of a constraint overrides an earlier one |
| `Utils.PropertiesHaveEveryKey` | utils.go:105-107 | every field's key is in `Properties` |
| `Utils.PropertiesHaveOnlyKeys` | utils.go:105-107 | `Properties` holds no key other than a field's key |
| `Utils.PropertiesKeepLastField` | utils.go:105-107 | a key maps to the descriptor of the last field stored under it |
| `Utils.PropertiesAreByName` | utils.go:105-107 | the struct's `Properties` are the field descriptors stored under their names, in field order |
| `Utils.ByNameKeepsLast` | utils.go:105-107 | storing descriptors by name keeps, under each name, the last descriptor that carries it |
| `Utils.DescribeStruct` | utils.go:100-111 | a struct gives an "object" of kind struct with the type's id and name, no other children, exactly the fields' keys in `Properties`, and each distinct key mapped to its field's descriptor |
| `Utils.DescribeIsUnconstrained` | utils.go:93-98 | the builder's kind is the kind of the type after one pointer level is stripped, and no constraint or default is set |
| `Utils.DescribeShape` | utils.go:112-122 | a map gives an "object" whose `AdditionalProperties` describe the element type; a slice or array gives an "array" whose `Items` describe it; any other type gets its `types` and `formats` entries and no children |
| `Utils.DescribeStripsOnePointer` | utils.go:94-96 | `*T` describes like `T`, while `**T` becomes a pointer leaf with an empty type name |
| `Utils.LeafSchemasMatchBuilder` | gskma.go:225-286 | each leaf constructor builds the descriptor the builder derives for its Go type |
| `Utils.PlainIntHasNoFormat` | utils.go:119-122 | Go's `int` is an "integer" of kind int with an empty format |
| `Utils.CastIfNumeric` | utils.go:141-160 | nil passes through; a descriptor of another kind than int32, int64, float32, float64 or bool leaves the value unchanged; for each of those five kinds, the value succeeds exactly when that kind's converter does, holds the converter's result, and fails with the converter's error |
| `Utils.CastFormattedInteger` | utils.go:148-151 | against an int32 or int64 descriptor, the decimal spelling of an in-range integer coerces exactly as the integer does, to that integer |
| `Utils.CastFormattedBool` | utils.go:156-157 | against a bool descriptor, `true` and `false` coerce exactly as the booleans do |
| `Utils.CastIsIdempotent` | utils.go:141-160 | a coerced value coerces to itself |
| `Utils.LastSetting` | utils.go:24-88 | the limit of the last segment that sets a constraint always fits that constraint |
| `Utils.SegmentSetsOnlyItsConstraint` | utils.go:25-87 | `ApplySegment`: one segment sets only the constraint its key names, and only when its value parses; it never touches names, kind or children, whatever the type name |
| `Utils.SegmentsSetLastSetting` | utils.go:24-89 | `ApplySegments`: after all segments, each constraint has the value of the last segment that sets it, or its earlier value if none does; the shape is unchanged |
| `Utils.KeysAreCaseSensitive` | utils.go:26-87 | `KeyOf` maps `max` and `maximum` to the maximum, while `Max`, `maxlength` and `required` are no key |
| `Utils.UntaggedField` | utils.go:12-15 | a field without a tag is its type's descriptor, named after the field, with no constraint |
| `Utils.LookupKeyMatchesStoredKey` | utils.go:126-139 | the lookup key is the stored key unless the tag's first segment is empty, in which case the stored key is "" |
| `Utils.NameOfField` | utils.go:126-139 | the lookup key is the Go name or the tag's first segment, and is never empty when the Go name is not |
| `Utils.NameOfFieldKey` | utils.go:126-139 | the lookup key is exactly the tag's first segment when the tag is non-empty and that segment is non-empty, and the Go name otherwise |
| `Utils.LeafTableEntries` | gskma.go:8-35 | the `types` and `formats` entries of string, int32, int64, float32, float64 and bool |
| `Validators.GoRem` | validators.go:77 | Go's remainder has the sign of the dividend and is smaller in magnitude than the divisor |
| `Validators.GoRemIsZeroIffDivisible` | validators.go:77 | Go's truncated remainder is zero exactly when the divisor divides the dividend |
| `Validators.NatRemIsMod` | validators.go:77 | the remainder by repeated subtraction, which `GoRem` uses for Go's `%`, equals the Euclidean remainder on natural numbers |
| `Validators.GoRemIsCongruent` | validators.go:77 | Go's remainder differs from the dividend by a multiple of the divisor |
| `Validators.BoundError` | validators.go:61-75 | there is no bound error exactly when every set bound holds; otherwise the error is that of the first broken bound in the order maximum, minimum, exclusive maximum, exclusive minimum |
| `Validators.CheckNumber` | validators.go:51-82 | a number passes unchanged only within every bound; a broken bound gives that bound's error; a number within the bounds fails only for multipleOf |
| `Validators.LengthError` | validators.go:41-47 | there is no length error exactly when both length limits hold |
| `Validators.CountError` | validators.go:105-111 | there is no count error exactly when both count limits hold |
| `Validators.ChildrenPassUnlessError` | validators.go:93-137 | the walk over children reports no error exactly when every child passes |
| `Validators.NoChildErrorIsAllPass` | validators.go:93-137 | the walk over children from a position reports no error exactly when each child from there on passes, one at a time |
| `Validators.ChildrenErrorIsFirstFailure` | validators.go:93-137 | when the walk over children reports an error, it is the error of the first failing child and every earlier child passes |
| `Validators.CheckReturnsValueOrDefault` | validators.go:10-38 | `validate` never invents a value: success returns the value with one pointer level stripped, or the default for an absent value; a present passing value has the descriptor's kind |
| `Validators.AbsentGivesDefault` | validators.go:16-36 | an absent value or nil pointer gives the default when one is set, and nil otherwise, without panicking |
| `Validators.OtherKindsPass` | validators.go:35-36 | a present value of the descriptor's kind that is not a string, sized number, map, struct or list meets no panic, skips every constraint and is returned unchanged |
| `Validators.WrongKindRejected` | validators.go:20-22 | a present value of another kind fails with the descriptor's type name |
| `Validators.PassingValueIsReturned` | validators.go:10-37 | a present value that passes is returned unchanged after one pointer level is stripped |
| `Validators.StringRule` | validators.go:40-49 | a string passes exactly when its byte length is within both limits; maxLength is checked first |
| `Validators.IntegerRule` | validators.go:51-82 | an int32 or int64 passes exactly when it is within every bound and divisible by multipleOf; bounds come before divisibility |
| `Validators.FloatRule` | validators.go:51-75 | a float passes exactly when it is within every bound; the error is the first broken bound's |
| `Validators.MultipleOfOnFloatPanics` | validators.go:77 | multipleOf on a float32 or float64 descriptor panics once a value passes the bounds |
| `Validators.ListRule` | validators.go:123-139 | a list passes exactly when its length is within the item limits and every element passes; otherwise the count error, or the first failing element's error |
| `Validators.StructRule` | validators.go:84-102 | a struct passes exactly when every field passes against its `Properties` entry; otherwise the first failing field's error |
| `Validators.MapRule` | validators.go:104-121 | a map passes exactly when its size is within the property limits and every value passes; otherwise the count error or some value's error |
| `Validators.PropertyCountOnStructPanics` | validators.go:85-91 | a property count on a struct descriptor panics for every struct value |
| `Validators.Validate` | validators.go:10-38 | the dispatching walk computes `Check` |
| `Validators.ValidateMap` | validators.go:104-121 | the loop over a map's values computes `Check` |
| `Validators.ValidateStruct` | validators.go:84-102 | the loop over a struct's fields computes `Check` |
| `Validators.ValidateArray` | validators.go:123-139 | the loop over a list's elements computes `Check` |
| `Gskma.Configure` | gskma.go:94-200 | a setter stores its constraint exactly when the type name admits it, keeping the shape; otherwise it panics with the setter's message |
| `Gskma.ConfigureChangesOnlyItsConstraint` | gskma.go:98-198 | a setter leaves every other constraint as it was |
| `Gskma.ConfigureKeepsKindCompatible` | gskma.go:94-200 | setters keep every set constraint suited to the type name |
| `Gskma.WithDefault` | gskma.go:83-90 | the default is stored exactly when the value coerces, and it is the coerced value; every constraint and the rest of the descriptor are kept; otherwise it panics with "invalid default value for type" |
| `Gskma.ValidateData` | gskma.go:203-222 | a coercion error is returned as is; a coerced value fails exactly when the validator rejects it, with the validator's error; an absent value, or a coerced value that is a nil pointer, gives the default (nil when none); a present passing value is returned as coerced |
| `Gskma.DefaultAnswersAbsent` | gskma.go:83-90 | after `Default`, validating nil gives the stored default |
| `Gskma.Int32Examples` | gskma_test.go:65-88 | Int32 turns "1" into int32(1) and rejects "1.5", "string" and an empty slice |
| `Gskma.Float32Example` | gskma_test.go:161-166 | Float32 turns "1" into float32(1) |
| `Gskma.BooleanExample` | gskma_test.go:227-232 | Boolean turns "true" into true and rejects a plain int |
| `Gskma.WrongKindSetterPanics` | gskma.go:94-100 | Maximum on a string descriptor panics with its message |
| `Gskma.SingletonRangeConfigured` | gskma.go:94-140 | Minimum, Maximum and MultipleOf on Int64 set exactly those three constraints |
| `Gskma.SingletonRangeExample` | validators.go:61-67 | with minimum and maximum 1, only 1 passes; 2 is above the maximum and 0 below the minimum |
| `Gskma.Schema.OfString` | gskma.go:225-232 | `String()` holds the string leaf descriptor |
| `Gskma.Schema.OfInt32` | gskma.go:234-243 | `Int32()` holds the int32 leaf descriptor |
| `Gskma.Schema.OfInt64` | gskma.go:245-254 | `Int64()` holds the int64 leaf descriptor |
| `Gskma.Schema.OfFloat32` | gskma.go:256-265 | `Float32()` holds the float32 leaf descriptor |
| `Gskma.Schema.OfFloat64` | gskma.go:267-276 | `Float64()` holds the float64 leaf descriptor |
| `Gskma.Schema.OfBoolean` | gskma.go:278-286 | `Boolean()` holds the boolean leaf descriptor |
| `Gskma.Schema.TypeOf` | gskma.go:289-294 | `TypeOf` holds the builder's descriptor of the type |
| `Gskma.Schema.Apply` | gskma.go:94-200 | a setter updates the descriptor as `Configure` says and returns the receiver, or leaves it unchanged and panics |
| `Gskma.Schema.Maximum` | gskma.go:94-100 | stores the maximum on "integer" and "number", otherwise panics |
| `Gskma.Schema.Minimum` | gskma.go:104-110 | stores the minimum on "integer" and "number", otherwise panics |
| `Gskma.Schema.ExclusiveMaximum` | gskma.go:114-120 | stores the exclusive maximum on "integer" and "number", otherwise panics |
| `Gskma.Schema.ExclusiveMinimum` | gskma.go:124-130 | stores the exclusive minimum on "integer" and "number", otherwise panics |
| `Gskma.Schema.MultipleOf` | gskma.go:134-140 | stores multipleOf on "integer", otherwise panics |
| `Gskma.Schema.MaxLength` | gskma.go:144-150 | stores the maximum length on "string", otherwise panics |
| `Gskma.Schema.MinLength` | gskma.go:154-160 | stores the minimum length on "string", otherwise panics |
| `Gskma.Schema.MaxItems` | gskma.go:164-170 | stores the maximum item count on "array", otherwise panics |
| `Gskma.Schema.MinItems` | gskma.go:174-180 | stores the minimum item count on "array", otherwise panics |
| `Gskma.Schema.MaxProperties` | gskma.go:184-190 | stores the maximum property count on "object", otherwise panics |
| `Gskma.Schema.MinProperties` | gskma.go:194-200 | stores the minimum property count on "object", otherwise panics |
| `Gskma.Schema.Default` | gskma.go:83-90 | stores the coerced default and returns the receiver, or panics and leaves the descriptor unchanged |
| `Gskma.Schema.Validate` | gskma.go:203-222 | coerces, validates and maps an absent result to nil, as `ValidateData` says, without changing the descriptor |

## Left out

- JSON serialisation (`MarshalJSON`, `UnmarshalJSON`) goes through `encoding/json`, which is not part of this model.
- `strconv.ParseFloat` is a parameter (`Converters.FloatParser`). Floats are modelled as reals, so float rounding is not modelled.
- Converters.ConvertToFloat32: does not model the narrowing to float32 precision; the value is kept as parsed.
- Validators.IntegerRule: compares the exact integer with the bounds; the source first widens an int64 to float64, which rounds integers beyond 2^53.
- Error messages are constructors of `Errors.Error` carrying the threshold; the `%v`/`%d` text rendering is not modelled.
- The unused record fields `Pattern`, `Enum`, `AllOf`, `AnyOf`, `OneOf`, `Required` and `required` are not modelled; nothing reads or sets them except the `Required` append, which never runs.
- Reflection mechanics are replaced by datatypes. `Tag.Get("json")` is not modelled: a field carries its `json` tag value directly.
- Map iteration order is unspecified in Go. A map's entries are one sequence in one iteration order, so `Validators.MapRule` states "some value's error" rather than a particular one.
- Kinds not modelled: complex numbers, channels, functions and unsafe pointers are not in `Reflect.Kind`. `newSchema` would accept, say, a `complex128` field and give it the empty type name.
- Named types are not modelled. The converters switch on a value's exact dynamic type (converters.go:11-30), so a value of a named type such as `type Age int32` fails coercion even against a descriptor of kind int32. In the model a value carries only its kind, so `IntV(Int32, n)` coerces.
- NaN and the infinities are not modelled. `strconv.ParseFloat` can return them, and a NaN passes every bound check (validators.go:61-75). The model's float parser yields reals only.
- Go maps have distinct keys. `Reflect.Value.MapV` is a sequence of entries and does not require that, so on a sequence that repeats a key the model's entry count differs from any Go map's `Len()`.
- Integer widths are not enforced on values. `Reflect.Value.IntV(ik, i)` does not require `i` to lie in the range of kind `ik`, whereas a Go `int32` or `int64` value always does. The converters narrow explicitly where the source converts (`ToInt32`). A lemma about `IntV` values therefore also covers out-of-range values that no Go program can produce.
- `TypeOf(nil)`, where `reflect.TypeOf` returns nil, is not modelled: a type is always given.
- Runtime panics in the builder and the validator are preconditions (`Buildable`, `TagOk`, `Safe`, `CanValidate`), not behaviour.
- Strings are sequences of characters that stand for bytes; UTF-8 is not modelled, and a string's length is its byte count.
- Ints are 64 bits wide, as on a 64-bit platform, so the `int(v)` conversions of tag values change nothing.
