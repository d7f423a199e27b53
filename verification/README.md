# VESC angle bookkeeping, modelled in Dafny

This project models the angle bookkeeping of the `VESC` motor wrapper in
`src/SerialVESC.cpp` (vesc-serial-feedback). The wrapper sits between a robot's
control loop and a VESC motor controller on a serial line. It does three things:

- it converts angles between the controller's encoder frame and the robot frame,
  using a per-motor encoder offset and encoder direction;
- it keeps the last encoder angle received and a first-difference velocity
  estimate (degrees per second) that stays correct across the 0/360 seam;
- it emits position and current commands, including one step of a
  position controller that turns the angle error and the velocity estimate
  into a current.

Angles are `real`, so wrap-around and round trips hold exactly.

Modules:

- `Angles` (`angles.dfy`) holds the two firmware helpers the wrapper uses,
  `utils_norm_angle` (`Norm`) and `utils_angle_difference` (`Diff`). It also
  holds congruence modulo 360 (`Congruent`: the two angles differ by a whole
  number of turns, `Turns(k)`).
  `utils.h` is not part of this model. Each helper is therefore pinned down by
  its contract, and every property below uses only those contracts:
  - `Norm(x)` lies in [0, 360) and is congruent to x;
  - `Diff(a, b)` lies in [-180, 180] and is congruent to a - b.

  `Diff` is first-minus-second. That is the only reading under which the call
  at line 36 (`(0, x)`) reflects and the call at line 239 (`(new, old)`) gives a
  forward velocity. In the source, `utils_norm_angle` updates its argument in
  place. Here it is a function that returns the reduced value.
- `Frames` (`frames.dfy`) holds `vesc_to_normalized_angle` and
  `normalized_to_vesc_angle` as pure functions of the angle, the offset and the
  direction. Only a direction of exactly -1 reflects. Any other value is read as
  "same sense", as the code does.
- `SerialVesc` (`serial_vesc.dfy`) holds the class `Vesc`. Its fields are the
  object's own fields: `vescAngle`, `trueDegps`, `encoderPeriod`
  (`VESC_ENCODER_PERIOD`), `encoderOffset`, `encoderDirection` and
  `maxCurrent`. It also has a ghost log of the commands sent, `log: seq<Command>`,
  which `_send_position` and `_send_current` append to. `Valid()` is the class
  invariant. It says the stored angle is in [0, 360) and the velocity estimate is
  the rate multiplier times an arc of at most half a turn (the ghost `lastArc`).
  The position controller `pos_controller.compute_command` is not part of this
  model. It is an arbitrary function `pdLaw` from (error, velocity) to a
  fraction of the maximum current, supplied at construction.

Facts about the code that the model relies on:

- `utils_angle_difference` is first-minus-second. The call at line 36 passes
  `(0, x)` to reflect x, and the call at line 239 passes `(new, old)` to get a
  forward velocity; both need a - b. Which endpoint the helper returns for
  exactly half a turn is not visible, so the contract states the closed range
  [-180, 180].
- `encoder_direction` is any integer. Only -1 reflects the angle.
- `max_current` scales the PID output but never clamps it in this file, and
  `write_current` does not use it at all.
- The constructor leaves `encoder_offset`, `encoder_direction` and
  `max_current` unset. The model leaves them arbitrary until `Attach`, and no
  operation requires `Attach` to have been called.

## Model

| member | source | states |
|---|---|---|
| `Angles.Norm` | src/SerialVESC.cpp:42-43 | the normalised angle lies in [0, 360) and names the same direction as its argument (congruent modulo 360), for inputs of any sign and size |
| `Angles.NormCanonical` | src/SerialVESC.cpp:64-65 | the normalised angle is the unique value in [0, 360) congruent to the argument |
| `Angles.NormIdempotent` | src/SerialVESC.cpp:229-230 | normalising an already normalised angle changes nothing |
| `Angles.NormEqualIff` | src/SerialVESC.cpp:42-43 | two angles normalise to the same value if and only if they differ by whole turns |
| `Angles.Diff` | src/SerialVESC.cpp:239 | the angle difference lies in [-180, 180] and is congruent to first minus second |
| `Angles.DiffRecoversMove` | src/SerialVESC.cpp:237-240 | any true move of less than half a turn is recovered exactly by the difference, whatever whole turns separate the two readings |
| `Angles.DiffFromZeroReflects` | src/SerialVESC.cpp:34-37 | the difference from 0 reflects an angle: it names the direction of its negation |
| `Angles.DiffAtSeam` | src/SerialVESC.cpp:239 | from 359 to 1 the difference is +2, from 1 to 359 it is -2, and half a turn comes out as magnitude 180 |
| `Frames.VescToNormalized` | src/SerialVESC.cpp:31-46 | the robot-frame angle lies in [0, 360) for every input, offset and direction |
| `Frames.NormalizedToVesc` | src/SerialVESC.cpp:53-68 | the encoder-frame angle lies in [0, 360) for every input, offset and direction |
| `Frames.VescToNormalizedMeaning` | src/SerialVESC.cpp:31-46 | with direction other than -1 the robot angle is raw + offset modulo 360; with -1 it is offset - raw modulo 360 (both as congruences and as the exact normalised value) |
| `Frames.NormalizedToVescMeaning` | src/SerialVESC.cpp:53-68 | with direction other than -1 the encoder angle is angle - offset modulo 360; with -1 it is offset - angle modulo 360 |
| `Frames.RoundTripFromVesc` | src/SerialVESC.cpp:31-68 | encoder to robot to encoder gives back the normalised encoder angle, for every offset and every direction |
| `Frames.RoundTripFromNormalized` | src/SerialVESC.cpp:31-68 | robot to encoder to robot gives back the normalised robot angle, for every offset and every direction |
| `Frames.VescToNormalizedIgnoresWinding` | src/SerialVESC.cpp:31-46 | two encoder angles that differ by whole turns give the same robot angle |
| `Frames.ReversedEncoderExample` | src/SerialVESC.cpp:34-43 | with direction -1 and offset 0, the encoder angle 90 reads as 270 |
| `SerialVesc.VelocityOfSmallMove` | src/SerialVESC.cpp:237-240 | after a move of less than half a turn from any previous angle, the difference is exactly that move, so the velocity is the rate multiplier times it, across the seam as elsewhere |
| `SerialVesc.VelocityAcrossSeam` | src/SerialVESC.cpp:237-240 | a step from 359 to 1 degree yields +2 times the rate multiplier, not -358 times it |
| `SerialVesc.PidErrorInRobotFrame` | src/SerialVESC.cpp:278-287 | the error fed to the controller for a robot-frame set point is, modulo 360, the read angle minus the set point, or its negation when the encoder is reversed |
| `SerialVesc.Vesc.VelocityBounded` | src/SerialVESC.cpp:237-240 | in every valid state the velocity estimate is at most 180 times the magnitude of the rate multiplier, in either direction |
| `SerialVesc.Vesc.constructor` | src/SerialVESC.cpp:138-148 | starts at angle 0 and velocity 0, stores the rate multiplier, has sent nothing, and is valid |
| `SerialVesc.Vesc.Attach` | src/SerialVESC.cpp:174-178 | overwrites exactly the offset, the direction and the maximum current, and nothing else |
| `SerialVesc.Vesc.UpdateAngle` | src/SerialVESC.cpp:226-246 | keeps the object valid; the stored angle becomes the normalised reading; the velocity becomes the rate multiplier times the shortest arc from the old stored angle to the new one; nothing else changes |
| `SerialVesc.Vesc.Read` | src/SerialVESC.cpp:214-216 | returns the robot-frame angle of the stored encoder angle, in [0, 360), and changes nothing |
| `SerialVesc.Vesc.SendPosition` | src/SerialVESC.cpp:78-80 | appends exactly one position command with the given angle to the log |
| `SerialVesc.Vesc.SendCurrent` | src/SerialVESC.cpp:85-87 | appends exactly one current command with the given current to the log |
| `SerialVesc.Vesc.Write` | src/SerialVESC.cpp:185-187 | appends exactly one position command, the robot-frame target converted to the encoder frame (so in [0, 360)), and touches neither the angle nor the velocity |
| `SerialVesc.Vesc.WriteCurrent` | src/SerialVESC.cpp:193-195 | appends exactly one current command equal to the given current, not clamped by the maximum current |
| `SerialVesc.Vesc.PidUpdate` | src/SerialVESC.cpp:285-291 | appends exactly one current command: the maximum current times the controller's output for the error (stored angle minus set point, shortest arc) and the velocity estimate |
| `SerialVesc.Vesc.PidUpdateNormalized` | src/SerialVESC.cpp:278-280 | appends exactly the command that `PidUpdate` would for the set point converted to the encoder frame |
| `SerialVesc.ReadReflectsLastUpdate` | src/SerialVESC.cpp:208-216 | after attach, two readings and any position, PID and current commands, a read gives the robot angle of the last reading, never of a commanded position |
| `SerialVesc.SmallMoveScenario` | src/SerialVESC.cpp:226-246 | on a `Vesc` object, readings `previous` (any real) then `previous + m` (m less than half a turn either way) leave the velocity at the rate multiplier times m |
| `SerialVesc.SeamStepScenario` | src/SerialVESC.cpp:237-240 | on a `Vesc` object, readings of 359 then 1 degree leave the velocity at +2 times the rate multiplier |
| `SerialVesc.OffsetTenVelocity` | src/SerialVESC.cpp:237-240 | readings of 350 then 355 degrees give 5 times the rate multiplier |
| `SerialVesc.OffsetTenRead` | src/SerialVESC.cpp:31-46 | with offset 10 and direction 1, the encoder angle 355 reads as 5 |
| `SerialVesc.OffsetTenWrite` | src/SerialVESC.cpp:53-68 | with offset 10 and direction 1, a write of 15 is sent as the encoder angle 5 |
| `SerialVesc.OffsetTenScenario` | src/SerialVESC.cpp:174-216 | offset 10, direction 1, readings 350 then 355 and any commands in between: a read returns 5 |

## Left out

- `packet_process_byte` (lines 156-166) decodes serial frames inside the VESC UART library, which is not part of this model. Its only effect here is a call to `UpdateAngle` with the decoded rotor position.
- `print_debug` (lines 251-270) only prints over the serial port, rate-limited by an external counter.
- `_send_position_pid_constants` and its caller `write_pos_and_pid_gains` (lines 98-122, 204-206) are left out: the body is entirely commented out, so both do nothing observable.
- `set_pid_gains` (lines 298-300) and the internals of `pos_controller` (`compute_command`, `set_gains`, and any state the controller keeps between calls) are not part of this model. The controller is the fixed function `pdLaw`, so gain changes are not represented.
- `vesc_uart.set_position` and `set_current` are transport I/O. They appear only as appends to the ghost command log. The serial port argument of the constructor is dropped.
- `float` arithmetic and its rounding are not modelled. All angles, currents and rates are exact reals, and the timing notes in the comments are not modelled either.
- `time_last_angle_read` is set by the constructor but never used in this file, so it is not modelled.
- `VESC_ENCODER_PERIOD` is an opaque rate multiplier, `encoderPeriod`, taken from the constructor's integer argument. Its intended physical unit is not modelled.
- `Angles.Diff`: the body returns values in (-180, 180], but the contract and every lemma rely only on the closed range [-180, 180]. Which endpoint the firmware helper returns for exactly half a turn is not part of this model.
