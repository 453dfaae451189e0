/** Shared vocabulary: a value that may be absent, and the ranges of the machine
    integers the program counts with (a 64-bit target). */
module Wrappers {

  datatype Option<+T> = None | Some(value: T)

  const U32_MAX: nat := 0xFFFF_FFFF
  const U64_MAX: nat := 0xFFFF_FFFF_FFFF_FFFF
  const USIZE_MAX: nat := U64_MAX
}
