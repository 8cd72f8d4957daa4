/** What every module shares. */
module Basics {
  datatype Option<+T> = None | Some(value: T)

  type Byte = b: nat | b < 256

  const U64_MAX: nat := 0xFFFF_FFFF_FFFF_FFFF
}
