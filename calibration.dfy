/** The auto-calibration state of the firmware: the smallest and largest raw
    samples observed since power-on, started at 25% and 75% of the input
    range and widened by every tick so that they bracket the sample just read.
    The bounds are recorded but not used by the axis mapping. */
module Calibration {
  import opened Config

  datatype Bounds = Bounds(smallest: int, largest: int)

  /** The bounds the firmware starts with. */
  const INITIAL: Bounds := Bounds(INITIAL_SMALLEST, INITIAL_LARGEST)

  /** Lies within `b`. */
  predicate Within(b: Bounds, x: int) {
    b.smallest <= x <= b.largest
  }

  /** `outer` contains `inner`: each bound of `outer` is at least as wide. */
  predicate Contains(outer: Bounds, inner: Bounds) {
    outer.smallest <= inner.smallest && inner.largest <= outer.largest
  }

  /** One calibration step: a bound moves only when the sample lies beyond it,
      and then it moves exactly to the sample. */
  function Widen(b: Bounds, sample: int): (r: Bounds)
    ensures Contains(r, b)
    ensures Within(r, sample)
    ensures r.smallest == b.smallest || r.smallest == sample
    ensures r.largest == b.largest || r.largest == sample
    ensures b.smallest <= sample ==> r.smallest == b.smallest
    ensures sample <= b.largest ==> r.largest == b.largest
  {
    var smallest := if sample < b.smallest then sample else b.smallest;
    var largest := if sample > b.largest then sample else b.largest;
    Bounds(smallest, largest)
  }

  /** The bounds after the ticks that read `samples`, in order, starting from `b`. */
  function CalibrateAll(b: Bounds, samples: seq<int>): (r: Bounds)
    ensures Contains(r, b)
    ensures b.smallest <= b.largest ==> r.smallest <= r.largest
    decreases |samples|
  {
    if samples == [] then b
    else Widen(CalibrateAll(b, samples[..|samples| - 1]), samples[|samples| - 1])
  }

  /** After any run of ticks, every sample read lies within the bounds. */
  lemma {:induction false} CalibrateAllBrackets(b: Bounds, samples: seq<int>, i: nat)
    requires i < |samples|
    ensures Within(CalibrateAll(b, samples), samples[i])
    decreases |samples|
  {
    var n := |samples| - 1;
    if i < n {
      CalibrateAllBrackets(b, samples[..n], i);
      assert samples[..n][i] == samples[i];
    }
  }

  /** Each bound after a run is either where it started or one of the samples:
      calibration never invents a value. */
  lemma {:induction false} CalibrateAllAttained(b: Bounds, samples: seq<int>)
    ensures CalibrateAll(b, samples).smallest == b.smallest || CalibrateAll(b, samples).smallest in samples
    ensures CalibrateAll(b, samples).largest == b.largest || CalibrateAll(b, samples).largest in samples
    decreases |samples|
  {
    if samples != [] {
      var n := |samples| - 1;
      CalibrateAllAttained(b, samples[..n]);
      assert samples == samples[..n] + [samples[n]];
    }
  }

  /** The bounds after a run are the tightest ones that contain the starting
      bounds and every sample: together with CalibrateAllBrackets this says
      they are the minimum and the maximum of the starting bounds and the samples. */
  lemma {:induction false} CalibrateAllTightest(b: Bounds, samples: seq<int>, outer: Bounds)
    requires Contains(outer, b)
    requires forall i :: 0 <= i < |samples| ==> Within(outer, samples[i])
    ensures Contains(outer, CalibrateAll(b, samples))
  {
    CalibrateAllAttained(b, samples);
  }

  /** Over time the bounds only widen: the bounds after a longer prefix of the
      samples contain the bounds after a shorter one. */
  lemma {:induction false} CalibrateAllOnlyWidens(b: Bounds, samples: seq<int>, j: nat, k: nat)
    requires j <= k <= |samples|
    ensures Contains(CalibrateAll(b, samples[..k]), CalibrateAll(b, samples[..j]))
    decreases k
  {
    if j < k {
      CalibrateAllOnlyWidens(b, samples, j, k - 1);
      assert samples[..k][..k - 1] == samples[..k - 1];
    }
  }

  /** Starting from the initial bounds and reading only valid raw samples,
      the bounds stay ordered and inside the input range. */
  lemma {:induction false} CalibrateAllInRange(samples: seq<int>)
    requires forall i :: 0 <= i < |samples| ==> IsRawSample(samples[i])
    ensures CalibrateAll(INITIAL, samples).smallest <= CalibrateAll(INITIAL, samples).largest
    ensures IsRawSample(CalibrateAll(INITIAL, samples).smallest)
    ensures IsRawSample(CalibrateAll(INITIAL, samples).largest)
  {
    CalibrateAllTightest(INITIAL, samples, Bounds(0, INPUT_RANGE - 1));
  }
}
