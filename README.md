# Sim handbrake firmware: sampling core

A model of the per-tick core of the handbrake firmware: a Teensy board reads
one analog sensor (a pressure sensor or potentiometer) and reports it to the
host as a 16-bit USB joystick axis. Each pass through the main loop reads a
raw sample, widens the auto-calibration bounds (the smallest and largest raw
values seen since power-on) so that they bracket it, passes the sample
through unchanged and clips it: a sample within the headroom band at either
end becomes that end of the axis.

Modules, following the structure of `loop()`:

- `Config` (`config.dfy`): the configuration constants and the constants the
  firmware derives from them, as exact integers (input and output range
  65536, headroom 655, initial calibration bounds 16384 and 49152).
- `RangeMapper` (`range_mapper.dfy`): the headroom clip as a pure function
  `Clip`, with its range, band, monotonicity, endpoint and idempotence lemmas.
- `Calibration` (`calibration.dfy`): the calibration bounds as a value, one
  calibration step `Widen`, and `CalibrateAll`, the bounds after a whole
  history of ticks, with lemmas about whole histories (every sample bracketed,
  bounds attained, tightest, only widening, inside the input range).
- `Firmware` (`firmware.dfy`): class `Handbrake`, holding the two
  calibration fields the firmware keeps as globals. `Tick` is the body of
  `loop()`. It updates the fields in place and returns the axis value. A ghost
  history of the samples read so far ties the fields to `CalibrateAll`.

The raw sample, which the firmware gets from `analogRead`, is a parameter of
`Tick`, constrained to `0 <= x < 65536`. The axis value, which the firmware
hands to `Joystick.Z` and `Joystick.send_now`, is its result.

Two details of the code shape the model:

- The comment at firmware/src/main.cpp:67 and the commented-out `map` calls
  at lines 68-69 describe a linear rescale to the output range, line 68
  over the calibration bounds. The live code at line 70 passes the raw sample through unchanged,
  and the model does the same. The calibration bounds are therefore updated
  but never used for the output.
- Line 22 computes the headroom as 1% of INPUT_RANGE, while lines 73-80
  compare it with output values. The two ranges are equal, so the headroom
  is 655 either way.

## Model

| member | source | states |
|---|---|---|
| Config.DerivedConstants | firmware/src/main.cpp:15-26 | the fixed ranges are `Pow2(16)`, the integer value of `pow(2, bits)`, the headroom is the floor of 1% of the input range, the initial bounds are exactly 1/4 and 3/4 of the input range, and the loop delay is 10 ms |
| RangeMapper.Clip | firmware/src/main.cpp:70-80 | every raw sample maps into the output range `[0, OUTPUT_RANGE-1]`; the output differs from the sample only when the sample lies in a headroom band, and then by less than HEADROOM |
| RangeMapper.ClipBands | firmware/src/main.cpp:73-80 | samples below HEADROOM give 0, samples above `OUTPUT_RANGE-1-HEADROOM` give `OUTPUT_RANGE-1`, all others pass through; an extreme output arises exactly from its band (both directions) |
| RangeMapper.ClipMonotone | firmware/src/main.cpp:72-80 | `a <= b` implies `Clip(a) <= Clip(b)` |
| RangeMapper.ClipEndpoints | firmware/src/main.cpp:72-80 | `Clip(0) == 0` and `Clip(INPUT_RANGE-1) == OUTPUT_RANGE-1`: both axis extremes are reachable |
| RangeMapper.ClipIdempotent | firmware/src/main.cpp:73-80 | clipping a clipped sample changes nothing |
| Calibration.Widen | firmware/src/main.cpp:55-65 | after one step the bounds contain the old bounds and the sample; a bound changes only when the sample lies beyond it, and then it becomes exactly the sample |
| Calibration.CalibrateAll | firmware/src/main.cpp:55-65 | the bounds after any history of ticks contain the starting bounds, and ordered starting bounds stay ordered |
| Calibration.CalibrateAllBrackets | firmware/src/main.cpp:56-65 | every sample of a history lies within the bounds after it |
| Calibration.CalibrateAllAttained | firmware/src/main.cpp:56-65 | each bound after a history is its starting value or one of the samples |
| Calibration.CalibrateAllTightest | firmware/src/main.cpp:56-65 | any bounds that contain the starting bounds and every sample contain the calibrated bounds, so these are the minimum and maximum |
| Calibration.CalibrateAllOnlyWidens | firmware/src/main.cpp:56-65 | the bounds after a longer prefix of the history contain those after a shorter one: the minimum never grows and the maximum never shrinks |
| Calibration.CalibrateAllInRange | firmware/src/main.cpp:25-65 | from the initial bounds, with valid raw samples only, the bounds stay ordered and inside the input range |
| Firmware.Handbrake.constructor | firmware/src/main.cpp:25-26 | power-on state: no samples, bounds 16384 and 49152, invariant established |
| Firmware.Handbrake.Tick | firmware/src/main.cpp:50-100 | keeps the invariant; the new bounds are `Widen` of the old ones, only widen, bracket the sample and stay in the input range; the output is `Clip` of the sample alone (the bounds do not enter it) and lies in the output range |

## Left out

- `setup()` (firmware/src/main.cpp:29-47): ADC resolution, pin mode, serial startup messages and manual-send mode are board bring-up and I/O.
- `analogRead`, `Joystick.Z`, `Joystick.send_now` and `delay`: hardware and USB calls; the sample is a parameter of `Tick` and the axis value its result.
- The floating-point `pow`, `floor` and `long double` products that derive the constants: replaced by the exact integers they produce (`Config.DerivedConstants` ties them to their definitions).
- The commented-out `map` alternatives and serial diagnostics in `loop()`: dead code.
- Integer width: the firmware's `long` values on this path never exceed 65536, far inside the at-least-32-bit range of a C++ `long`, so no wrap-around arises and Dafny's unbounded integers stand for them.
- Gear-shift switches, their debouncing and a separate update cadence do not appear in firmware/src/main.cpp, so they are not part of this model.
- firmware/src/name.c: a constant USB string descriptor for the device name, with no behaviour.
