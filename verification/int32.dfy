/**
 * Signed 32-bit arithmetic as the AVR compiler performs it for `int32_t` and `long`.
 * C leaves signed overflow undefined; this model takes the two's-complement wrap-around
 * that the target actually produces, and every property that depends on it says so.
 */
module Word {

  const Min: int := -0x8000_0000
  const Max: int := 0x7fff_ffff
  const Modulus: int := 0x1_0000_0000

  predicate InRange(x: int) {
    Min <= x <= Max
  }

  /** The values an `int32_t` (or AVR `long`) can hold. */
  type Int32 = x: int | InRange(x)

  /** Reduce a mathematical result to the 32-bit two's-complement value the hardware keeps. */
  function Wrap(x: int): (r: Int32)
    ensures InRange(x) ==> r == x
    ensures (x - r) % Modulus == 0
  {
    (x - Min) % Modulus + Min
  }
}
