/** Shared value types. */
module Options {
  datatype Option<+T> = None | Some(value: T)

  type Byte = b: int | 0 <= b < 256
  type Bytes = seq<Byte>

  const U64_MAX: nat := 0xFFFF_FFFF_FFFF_FFFF
}
