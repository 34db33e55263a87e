/** Shared building blocks: an optional value and the JSON tree that travels on the wire. */
module Basics {

  datatype Option<+T> = None | Some(value: T)

  /** The bit pattern of a 64-bit floating point number. */
  type F64Bits = n: nat | n < 0x1_0000_0000_0000_0000

  /** A JSON value after parsing. Integers and other numbers are kept apart, as the parser does. */
  datatype Json =
    | Null
    | Bool(b: bool)
    | Num(n: int)
    | Frac(bits: F64Bits)
    | Str(s: string)
    | Arr(items: seq<Json>)
    | Obj(fields: map<string, Json>)
}
