/** Option and Result, the two shapes in which the modelled code reports absence and failure, and its
    saturating arithmetic. */
module Wrappers {
  datatype Option<+T> = None | Some(value: T)

  datatype Result<+T, +E> = Success(value: T) | Failure(error: E)

  const U32_MAX: nat := 0xffff_ffff
  const U64_MAX: nat := 0xffff_ffff_ffff_ffff

  function SaturatingAdd32(a: nat, b: nat): nat {
    if a + b <= U32_MAX then a + b else U32_MAX
  }

  function Cap32(n: nat): nat {
    if n <= U32_MAX then n else U32_MAX
  }

  function SaturatingAdd64(a: nat, b: nat): nat {
    if a + b <= U64_MAX then a + b else U64_MAX
  }
}
