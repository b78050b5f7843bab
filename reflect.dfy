/**
 * Go's run-time type information as closed datatypes: the kinds the library distinguishes, the
 * types it derives descriptors from and the values it validates. Go strings are modelled as
 * `seq<char>` whose elements stand for the string's bytes, so `|s|` is Go's `len(s)`.
 */
module Reflect {

  /** The kinds of Go's `reflect.Kind` that the library can meet (`Invalid` is the zero Value). */
  datatype Kind =
    | Invalid | Bool
    | Int | Int8 | Int16 | Int32 | Int64
    | Uint | Uint8 | Uint16 | Uint32 | Uint64 | Uintptr
    | Float32 | Float64
    | String | Interface | Map | Struct | Slice | Array | Ptr

  predicate IsIntKind(k: Kind) {
    k in {Int, Int8, Int16, Int32, Int64, Uint, Uint8, Uint16, Uint32, Uint64, Uintptr}
  }

  type IntKind = k: Kind | IsIntKind(k) witness Int
  type FloatKind = k: Kind | k == Float32 || k == Float64 witness Float64
  type ListKind = k: Kind | k == Slice || k == Array witness Slice

  /** Kinds of the types that have no element type: the ones the `types` table describes as leaves. */
  type ScalarKind = k: Kind | k == Bool || IsIntKind(k) || k == Float32 || k == Float64 || k == String || k == Interface
    witness String

  /** The range of values of a Go integer kind (a 64-bit platform, so `int` and `uint` are 64 bits wide). */
  predicate InRange(k: IntKind, i: int) {
    match k
    case Int8 => -0x80 <= i < 0x80
    case Int16 => -0x8000 <= i < 0x8000
    case Int32 => -0x8000_0000 <= i < 0x8000_0000
    case Int | Int64 => -0x8000_0000_0000_0000 <= i < 0x8000_0000_0000_0000
    case Uint8 => 0 <= i < 0x100
    case Uint16 => 0 <= i < 0x1_0000
    case Uint32 => 0 <= i < 0x1_0000_0000
    case Uint | Uint64 | Uintptr => 0 <= i < 0x1_0000_0000_0000_0000
  }

  /**
   * A Go value as `reflect.Value` sees it. `Nil` is the untyped nil interface and the zero
   * (`Invalid`) reflect.Value; `PtrV(Nil)` is a nil pointer; `IfaceV` is a value read from a slot
   * whose static type is an interface (a struct field or map value of type `interface{}`).
   */
  datatype Value =
    | Nil
    | BoolV(b: bool)
    | IntV(ik: IntKind, i: int)
    | FloatV(fk: FloatKind, r: real)
    | StrV(s: string)
    /** A map's entries in one iteration order (Go leaves that order unspecified). */
    | MapV(entries: seq<Entry>)
    | StructV(fields: seq<FieldValue>)
    | ListV(lk: ListKind, elems: seq<Value>)
    | PtrV(target: Value)
    | IfaceV(dynamic: Value)

  datatype Entry = Entry(key: Value, val: Value)

  /** A struct field's value with its declared name and the value of its `json` tag ("" when absent). */
  datatype FieldValue = FieldValue(name: string, tag: string, val: Value)

  /** `reflect.Value.Kind`. */
  function KindOf(v: Value): Kind {
    match v
    case Nil => Invalid
    case BoolV(_) => Bool
    case IntV(k, _) => k
    case FloatV(k, _) => k
    case StrV(_) => String
    case MapV(_) => Map
    case StructV(_) => Struct
    case ListV(k, _) => k
    case PtrV(_) => Ptr
    case IfaceV(_) => Interface
  }

  /** One level of pointer indirection removed, as `if v.Kind() == reflect.Ptr { v = v.Elem() }`. */
  function Deref(v: Value): (u: Value)
    ensures u == v || u < v
  {
    if v.PtrV? then v.target else v
  }

  /** A Go type definition, as `reflect.Type` exposes it to the builder. Map key types are not kept. */
  datatype TypeDef =
    | Prim(k: ScalarKind)
    | Pointer(elem: TypeDef)
    /** A struct type: `id` is `t.String()`, `name` is `t.Name()`. */
    | StructOf(id: string, name: string, fields: seq<FieldDef>)
    | MapOf(elem: TypeDef)
    | ListOf(lk: ListKind, elem: TypeDef)

  /** A struct field: its Go name, the value of its `json` tag ("" when absent) and its type. */
  datatype FieldDef = FieldDef(name: string, tag: string, typ: TypeDef)

  /** `reflect.Type.Kind`. */
  function KindOfType(t: TypeDef): Kind {
    match t
    case Prim(k) => k
    case Pointer(_) => Ptr
    case StructOf(_, _, _) => Struct
    case MapOf(_) => Map
    case ListOf(k, _) => k
  }
}
