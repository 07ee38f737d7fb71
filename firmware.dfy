/** The firmware's process-lifetime state and the body of its main loop.
    The platform calls `Tick` over and over; the raw sample that the analog
    read would return is its parameter and the axis value that would be sent
    to the joystick is its result. */
module Firmware {
  import opened Config
  import opened Calibration
  import opened RangeMapper

  class Handbrake {
    /** The auto-calibration bounds, updated in place by every tick. */
    var smallestRawValue: int
    var largestRawValue: int

    /** Every raw sample read so far, oldest first. */
    ghost var Samples: seq<int>

    function CurrentBounds(): Bounds
      reads this
    {
      Bounds(smallestRawValue, largestRawValue)
    }

    /** The bounds are what calibrating over the history from the initial
        bounds gives, and the history holds only valid raw samples. */
    ghost predicate Valid()
      reads this
    {
      (forall i :: 0 <= i < |Samples| ==> IsRawSample(Samples[i])) &&
      CurrentBounds() == CalibrateAll(INITIAL, Samples)
    }

    /** Power-on state: no samples read, bounds at 25% and 75% of the range. */
    constructor ()
      ensures Valid()
      ensures Samples == []
      ensures smallestRawValue == INITIAL_SMALLEST && largestRawValue == INITIAL_LARGEST
    {
      smallestRawValue := INITIAL_SMALLEST;
      largestRawValue := INITIAL_LARGEST;
      Samples := [];
    }

    /** One pass of the main loop on the raw sample `inputValue`. */
    method Tick(inputValue: int) returns (outputValue: int)
      requires Valid()
      requires IsRawSample(inputValue)
      modifies this
      ensures Valid()
      ensures Samples == old(Samples) + [inputValue]
      ensures CurrentBounds() == Widen(old(CurrentBounds()), inputValue)
      ensures smallestRawValue <= old(smallestRawValue) && old(largestRawValue) <= largestRawValue
      ensures smallestRawValue <= inputValue <= largestRawValue
      ensures IsRawSample(smallestRawValue) && IsRawSample(largestRawValue)
      ensures outputValue == Clip(inputValue)
      ensures IsOutputValue(outputValue)
    {
      // auto-calibrate smallest value
      if inputValue < smallestRawValue {
        smallestRawValue := inputValue;
      }
      // auto-calibrate largest value
      if inputValue > largestRawValue {
        largestRawValue := inputValue;
      }
      Samples := Samples + [inputValue];
      assert Samples[..|Samples| - 1] == old(Samples);
      CalibrateAllInRange(Samples);

      // the raw value is the output value, cut at both ends
      outputValue := inputValue;
      if outputValue < HEADROOM {
        outputValue := 0;
      } else if outputValue > OUTPUT_RANGE - 1 - HEADROOM {
        outputValue := OUTPUT_RANGE - 1;
      }
    }
  }
}
