/** Machine integers of the C++ core and a small Option type.
    Unsigned C++ arithmetic wraps modulo 2^N; these helpers write that out
    so that no operation of the model silently uses unbounded integers. */
module Common {

  datatype Option<+T> = None | Some(value: T)

  const TWO_32: int := 0x1_0000_0000
  const TWO_63: int := 0x8000_0000_0000_0000
  const TWO_64: int := 0x1_0000_0000_0000_0000

  /** uint8_t */
  type u8 = x: int | 0 <= x < 0x100
  /** uint32_t (also the 32-bit view of a PAIR register) */
  type u32 = x: int | 0 <= x < TWO_32
  /** uint64_t */
  type u64 = x: int | 0 <= x < TWO_64

  const U64_MAX: u64 := TWO_64 - 1

  /** `a + b` on uint64_t: the sum wraps past 2^64 at most once. */
  function Add64(a: u64, b: u64): (r: u64)
    ensures a + b < TWO_64 ==> r == a + b
    ensures a + b >= TWO_64 ==> r == a + b - TWO_64
  {
    (a + b) % TWO_64
  }

  /** `a - b` on uint64_t: a negative difference wraps up by 2^64. */
  function Sub64(a: u64, b: u64): (r: u64)
    ensures a >= b ==> r == a - b
    ensures a < b ==> r == a - b + TWO_64
  {
    (a - b) % TWO_64
  }

  /** `a * 2` on uint64_t: the product loses its bit 64. */
  function Double64(a: u64): (r: u64)
    ensures a < TWO_63 ==> r == 2 * a
    ensures a >= TWO_63 ==> r == 2 * a - TWO_64
  {
    (a * 2) % TWO_64
  }
}
