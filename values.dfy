// The dynamic values that flow through a schema (Go's `Data = interface{}`)
// and the two actions a schema can run.
module Values {
  /** Go's `byte`. */
  type byte = x: int | 0 <= x < 256

  /**
   * Which Go integer type an integer value has. The casts of the string, int
   * and bool schema types treat `int`, `int64`, `uint` and `uint64` apart and
   * reject `int8`, `int16`, `int32`, `uint16` and `uint32`, which share
   * `Narrow`; a `uint8` is a `Byte`.
   */
  datatype IntKind = GoInt | GoInt64 | GoUint | GoUint64 | Narrow

  /**
   * A Go value as seen through `interface{}`. `Null` is the nil interface,
   * `Seq` a `[]interface{}` and `Map` a `map[string]interface{}`; `Opaque`
   * stands for a value of any other Go type, named by `goType`. Parsed JSON
   * documents use the same shapes, a JSON number being an `Int` of kind
   * `GoInt`.
   */
  datatype Data =
    | Null
    | Bool(b: bool)
    | Int(kind: IntKind, i: int)
    | Str(s: string)
    | Byte(octet: byte)
    | Bytes(octets: seq<byte>)
    | Seq(items: seq<Data>)
    | Map(entries: map<string, Data>)
    | Opaque(goType: string)

  /** A schema action (Go `SchemaAction`, a string). */
  type Action = string

  const PARSE: Action := "PARSE"
  const SERIALIZE: Action := "SERIALIZE"

  /** Go's `int` values, 64 bits wide. */
  predicate InInt64(i: int) {
    -0x8000_0000_0000_0000 <= i < 0x8000_0000_0000_0000
  }

  /** The values a Go `int` can hold. */
  type int64 = i: int | InInt64(i)

  /** A Go `int` holding `i`. */
  function GoIntOf(i: int): Data { Int(GoInt, i) }
}
