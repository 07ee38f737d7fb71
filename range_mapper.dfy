/** The axis path of one tick: the raw sample is passed through unchanged
    and then clipped, so that a sensor that never physically reaches the
    ends of its range still produces the two extreme axis values. */
module RangeMapper {
  import opened Config

  /** Output value for one sample: samples in the low headroom band become 0,
      samples in the high band become OUTPUT_RANGE - 1, the rest pass through. */
  function Clip(value: int): (r: int)
    ensures IsRawSample(value) ==> IsOutputValue(r)
    ensures r != value ==> value < HEADROOM || value > OUTPUT_RANGE - 1 - HEADROOM
    ensures IsRawSample(value) ==> -HEADROOM < r - value < HEADROOM
  {
    if value < HEADROOM then 0
    else if value > OUTPUT_RANGE - 1 - HEADROOM then OUTPUT_RANGE - 1
    else value
  }

  /** Every sample within HEADROOM of either end reaches that end, and every
      sample strictly between the bands is reported as it was read. */
  lemma ClipBands(value: int)
    requires IsRawSample(value)
    ensures value < HEADROOM ==> Clip(value) == 0
    ensures value > OUTPUT_RANGE - 1 - HEADROOM ==> Clip(value) == OUTPUT_RANGE - 1
    ensures HEADROOM <= value <= OUTPUT_RANGE - 1 - HEADROOM ==> Clip(value) == value
    ensures Clip(value) == 0 <==> value < HEADROOM
    ensures Clip(value) == OUTPUT_RANGE - 1 <==> value > OUTPUT_RANGE - 1 - HEADROOM
  {
  }

  /** Clipping keeps the order of samples. */
  lemma ClipMonotone(a: int, b: int)
    requires a <= b
    ensures Clip(a) <= Clip(b)
  {
  }

  /** Both extremes of the axis are reachable from the extremes of the input. */
  lemma ClipEndpoints()
    ensures Clip(0) == 0
    ensures Clip(INPUT_RANGE - 1) == OUTPUT_RANGE - 1
  {
  }

  /** Clipping an already clipped value changes nothing. */
  lemma ClipIdempotent(value: int)
    requires IsRawSample(value)
    ensures Clip(Clip(value)) == Clip(value)
  {
  }
}
