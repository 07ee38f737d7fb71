/** Compile-time configuration of the handbrake firmware and the constants
    derived from it. The firmware computes the derived constants with
    floating-point `pow` and `floor`; here they are the exact integers those
    computations yield, and the lemmas below tie them to their definitions. */
module Config {

  const LOOP_FREQUENCY_HZ: nat := 100
  const HEADROOM_PERCENTAGE: nat := 1
  const INPUT_RESOLUTION_BITS: nat := 16
  const OUTPUT_RESOLUTION_BITS: nat := 16

  /** Milliseconds to wait at the end of each tick (integer division). */
  const LOOP_DELAY_MS: nat := 1000 / LOOP_FREQUENCY_HZ

  /** 2 to the power INPUT_RESOLUTION_BITS: the number of distinct raw samples. */
  const INPUT_RANGE: int := 65536

  /** 2 to the power OUTPUT_RESOLUTION_BITS: the number of distinct axis values. */
  const OUTPUT_RANGE: int := 65536

  /** Width of each clipping band, HEADROOM_PERCENTAGE percent of INPUT_RANGE,
      rounded down. The firmware takes the percentage of the INPUT range. */
  const HEADROOM: int := 655

  /** Initial auto-calibration bounds: a quarter and three quarters of INPUT_RANGE. */
  const INITIAL_SMALLEST: int := 16384
  const INITIAL_LARGEST: int := 49152

  /** What the analog-to-digital converter can return at INPUT_RESOLUTION_BITS. */
  predicate IsRawSample(x: int) {
    0 <= x < INPUT_RANGE
  }

  /** What the joystick axis accepts at OUTPUT_RESOLUTION_BITS. */
  predicate IsOutputValue(x: int) {
    0 <= x < OUTPUT_RANGE
  }

  /** Integer power of two, standing for `pow(2, bits)`. */
  function Pow2(n: nat): nat
  {
    if n == 0 then 1 else 2 * Pow2(n - 1)
  }

  /** The fixed constants are the values the firmware derives from its
      configuration: the ranges are powers of two of the resolutions, the
      headroom is the floor of the percentage of the input range, and the
      calibration bounds sit at 25% and 75% of the input range. */
  lemma DerivedConstants()
    ensures INPUT_RANGE == Pow2(INPUT_RESOLUTION_BITS)
    ensures OUTPUT_RANGE == Pow2(OUTPUT_RESOLUTION_BITS)
    ensures HEADROOM * 100 <= HEADROOM_PERCENTAGE * INPUT_RANGE < (HEADROOM + 1) * 100
    ensures INITIAL_SMALLEST * 4 == INPUT_RANGE
    ensures INITIAL_LARGEST * 4 == INPUT_RANGE * 3
    ensures LOOP_DELAY_MS == 10
  {
    assert Pow2(8) == 256;
  }
}
