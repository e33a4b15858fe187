/** Shared datatypes and the byte type of Go strings. */
module Base {

  datatype Option<+T> = None | Some(value: T)

  newtype byte = x: int | 0 <= x < 256

  type Bytes = seq<byte>

  const QUOTE: byte := 39
  const BACKSLASH: byte := 92
}
