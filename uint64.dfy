/** Unsigned 64-bit arithmetic as the generators use it: `uint_fast64_t`,
    which is a 64-bit unsigned integer on the platforms the library targets. */
module UInt64 {

  /** 2^64: the modulus of unsigned 64-bit arithmetic. */
  const TWO_64: int := 0x1_0000_0000_0000_0000

  /** The largest value of the type (`UINT_FAST64_MAX`). */
  const UINT_FAST64_MAX: int := 0xFFFF_FFFF_FFFF_FFFF

  type u64 = x: int | 0 <= x < TWO_64

  /** Reduces an exact result to the value a 64-bit unsigned operation stores. */
  function Wrap(x: int): (r: u64)
    ensures 0 <= x < TWO_64 ==> r == x
    ensures (r - x) % TWO_64 == 0
    ensures 0 <= x ==> r <= x
  {
    x % TWO_64
  }
}
