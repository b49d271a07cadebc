/**
 * The Go value domain the core works on: 64-bit signed integers, bytes, and
 * the dynamically typed values (`interface{}`) held in a decoded JSON record.
 */
module GoValues {
  const MinInt64: int := -0x8000_0000_0000_0000
  const MaxInt64: int := 0x7fff_ffff_ffff_ffff

  /** Go's `int64`. */
  type Int64 = x: int | MinInt64 <= x <= MaxInt64

  /** Go's `byte`: strings and `[]byte` are sequences of these. */
  newtype byte = x: int | 0 <= x < 256

  /**
   * A dynamically typed value as it can sit in a `map[string]interface{}`.
   * `encoding/json` decodes every JSON number to `Float64`; `Int64` only
   * arrives when a Go caller puts an `int64` in the record itself.  `Other`
   * stands for every remaining dynamic type (arrays, maps, `int`, ...).
   */
  datatype Value =
    | Nil
    | Str(s: string)
    | Int64Val(n: Int64)
    | Float64(x: real)
    | Bool(b: bool)
    | Other

  /** One incoming event record, `map[string]interface{}`. */
  type Record = map<string, Value>

  /** Go's `m[key]` on a map of interfaces: a missing key reads as `nil`. */
  function Lookup(m: Record, key: string): Value
  {
    if key in m then m[key] else Nil
  }
}
