/** Go's fixed-width integers, written out: Dafny's `int` is unbounded. */
module Ints {

  newtype int32 = x: int | -0x8000_0000 <= x < 0x8000_0000

  newtype int64 = x: int | -0x8000_0000_0000_0000 <= x < 0x8000_0000_0000_0000

  const MaxInt32: int32 := 0x7fff_ffff
  const MinInt32: int32 := -0x8000_0000

  /** Go's `d + 1` on an `int32`: two's-complement arithmetic modulo 2^32. */
  function AddOne32(d: int32): (r: int32)
    ensures d < MaxInt32 ==> r as int == d as int + 1
    ensures d == MaxInt32 ==> r == MinInt32
  {
    ((d as int + 1 + 0x8000_0000) % 0x1_0000_0000 - 0x8000_0000) as int32
  }
}
