/** Java `int` arithmetic, as far as the environment's counters use it. */
module Int32 {

  const MinInt32: int := -0x8000_0000
  const MaxInt32: int := 0x7fff_ffff

  /** The values a Java `int` can hold. */
  type Int32 = x: int | -0x8000_0000 <= x <= 0x7fff_ffff

  /** Java's `x++` on an `int`: two's-complement increment, wrapping at the top. */
  function Inc(x: Int32): (r: Int32)
    ensures (r - x) % 0x1_0000_0000 == 1
    ensures x < MaxInt32 ==> r == x + 1
  {
    if x == MaxInt32 then MinInt32 else x + 1
  }
}
