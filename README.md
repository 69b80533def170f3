# Forward calibrator for a two-servo robot, in Dafny

The program runs on a micro:bit that drives a robot with two continuous servos, P1 and P2. It helps an operator find the servo outputs at which the robot drives straight. Each press of button A or B moves the calibration one step:

1. The first press of either button runs a forward test: turn around, drive at the current outputs, stop, turn back.
2. The second press chooses the servo to tune. A chooses P1 and B chooses P2.
3. Every later press reports a veer. A means the output goes Up (+1) and B means it goes Down (-1). The step is ceiling-halved whenever the reported direction reverses, starting from 90. The chosen servo's output moves by direction times step and is clamped to that servo's limits, [0, 90] for P1 and [90, 180] for P2. Then the forward test runs again.

The model has three files:

- `calibration_spec.dfy`, module `CalibrationSpec`. The six module-level variables become the datatype `State`, and the two `undefined` sentinels become `Option` values. Each update routine and the two handlers become pure functions of the old `State`. Servo writes and display calls are a trace of `Output` values.
- `calibrator.dfy`, module `CalibratorMachine`. Class `Calibrator` holds the six variables as fields and records every hardware call in the field `outputs`. It has one method per routine of the program and the handlers `ButtonA` and `ButtonB`. Each method reassigns the fields statement by statement, as the program does. Its `ensures` ties the new fields to the matching `CalibrationSpec` function of the old fields, and ties the new trace to the old trace extended by what that step emits.
- `calibration_properties.dfy`, module `CalibrationProperties`. It proves the program's promises about any sequence of presses, with `Run` applying presses one at a time:
  - the three phases of a press;
  - the pin choice never changes once made;
  - the step follows the schedule 90, 45, 23, 12, 6, 3, 2, 1, 1, … and never grows;
  - every reachable state keeps 0 ≤ P1 ≤ 90 and 90 ≤ P2 ≤ 180.

The P2 update is kept exactly as written: its base is P1's current output, not P2's (main.ts:136). This looks like a copy-paste slip, but the intended formula is not certain, so the model does not change it. `RunP2Pinned` proves what it causes:

- once P2 is chosen, P1 stays 0, because only the P1 update moves P1;
- from the first adjustment on, P2 is 90 and stays 90, because 0 ± a step of at most 90 always clamps to P2's minimum.

So tuning P2 can never move it off 90. `SessionTuningP2` shows a concrete session. `SettledNudge` states the settled behaviour: at step 1, repeated presses of one button move P1 by ±1 until it is pinned at 0 or 90, while P2 does not move.

`Math.ceil(x / 2)` is `CeilHalf(x) = (x + 1) / 2`. Dafny's division by a positive divisor rounds down, so this equals the ceiling for every integer, and its contract states `x <= 2*r <= x + 1`. The P1 clamp uses strict comparisons (main.ts:124-127) and the P2 clamp uses inclusive ones (main.ts:139-142). Each method keeps its own comparisons, and both are proved equal to the one nearest-point `Clamp`.

The tests `!currentVerticalDirection` and `!pinThatNeedsChanging` are true only when the value is unset, because every member of both enums is non-zero (main.ts:6-14). Both tests are written as `.None?`.

## Model

| member | source | states |
|---|---|---|
| CalibrationSpec.Value | main.ts:6-9 | the number of a direction is 1 or -1, never 0, and positive exactly for Up |
| CalibrationSpec.Initial | main.ts:71-78 | the power-on state satisfies the state invariant (outputs in their limits, step 90, nothing selected) and is in the first-test phase |
| CalibrationSpec.Press | main.ts:163-205 | after any press the first test is over; after the first press a pin is always selected; a selected pin is kept (the phases in detail: FirstPress, SelectPin, AdjustPress) |
| CalibrationSpec.Emitted | main.ts:163-205 | a press emits something; the first press ends with the direction prompt; later presses start with a displayed number; a press drives the servos exactly when it is not the pin-selection press |
| CalibrationSpec.TurnAroundWrites | main.ts:58-68 | only servo writes: both servos spin at 45 and the sequence ends by stopping P1 then P2 |
| CalibrationSpec.ForwardTestWrites | main.ts:83-105 | only servo writes: P1 and P2 are driven at the given outputs and the sequence ends by stopping both |
| CalibrationSpec.StartupOutputs | main.ts:49-53 | both servos are stopped, then the start prompt is shown |
| CalibrationSpec.Negate | main.ts:114 | the negated direction has the negated number (Up = 1, Down = -1) and differs from the original |
| CalibrationSpec.CeilHalf | main.ts:113 | `Math.ceil(x/2)`: the least r with x <= 2r, for every integer x |
| CalibrationSpec.Clamp | main.ts:123-127 | the result lies in [min, max], equals x when x already does, and is the point of [min, max] nearest to x |
| CalibrationSpec.Halve | main.ts:113 | repeated ceiling-halving of a positive step stays in [1, step] |
| CalibrationSpec.UpdateVerticalDirection | main.ts:107-116 | afterwards the recorded direction is d; the step is ceiling-halved exactly when the recorded direction was the opposite of d, and kept when it was unset or equal; nothing else changes |
| CalibrationSpec.UpdateP1PinValue | main.ts:119-131 | only P1 changes, and it ends in [0, 90] |
| CalibrationSpec.UpdateP2PinValue | main.ts:134-146 | only P2 changes, and it ends in [90, 180] |
| CalibrationSpec.UpdateOutputValue | main.ts:151-160 | the direction becomes d; the selected pin and the first-test flag are untouched |
| CalibrationProperties.FirstPress | main.ts:166-172 | the first press of A (or B, main.ts:188-194) only clears firstTest: outputs, step, direction and pin are unchanged, and the forward test then the direction prompt are emitted |
| CalibrationProperties.SelectPin | main.ts:175-179 | with no pin selected after the first test, A selects P1 and B selects P2 (main.ts:197-201), nothing else changes, and only P1's minimum or P2's maximum is displayed |
| CalibrationProperties.AdjustPress | main.ts:151-160 | while adjusting, A records Up and B records Down; the step halves exactly on a reversal; only the selected pin moves, to clamp(P1 + direction*new step) within its limits; the selected pin's new output is displayed, then the forward test drives the new outputs |
| CalibrationProperties.HandlerConstants | main.ts:176-203 | A selects P1 and applies Up (1); B selects P2 and applies Down (-1) |
| CalibrationProperties.SettledNudge | main.ts:151-160 | at step 1 with the recorded direction, a press keeps the step and direction, moves a selected P1 by ±1 clamped to [0, 90], and leaves P2 at 90 when P1 is 0 |
| CalibrationProperties.RunKeepsPin | main.ts:175-179 | once a pin is selected, no sequence of later presses changes it |
| CalibrationProperties.PinChoiceIsFinal | main.ts:175-201 | after power-on, every state from the second press on has the pin chosen by the second press |
| CalibrationProperties.PressStep | main.ts:112-115 | a press changes the step only on a reversal, and then to its ceiling half |
| CalibrationProperties.RunStepIsHalving | main.ts:112-115 | after any run the step is the starting step ceiling-halved once per reversal in the run |
| CalibrationProperties.HalveNonIncreasing | main.ts:113 | more reversals never give a larger step |
| CalibrationProperties.HalvingSchedule | main.ts:45 | from 90 the steps are 90, 45, 23, 12, 6, 3, 2, 1 |
| CalibrationProperties.HalveSettles | main.ts:45 | from the seventh reversal on the step is 1 |
| CalibrationProperties.StepNonIncreasing | main.ts:113 | along any run from power-on the step never increases and never drops below 1 |
| CalibrationProperties.ReachableStep | main.ts:45 | every reachable step is one of 90, 45, 23, 12, 6, 3, 2, 1 |
| CalibrationProperties.PressPreservesValid | main.ts:119-146 | one press keeps P1 in [0, 90], P2 in [90, 180], the step in [1, 90], and keeps outputs, step and direction at their initial values until a pin is chosen |
| CalibrationProperties.RunPreservesValid | main.ts:119-146 | any sequence of presses keeps the state invariant |
| CalibrationProperties.ReachableValid | main.ts:31-42 | every state reachable from power-on has 0 <= P1 <= 90, 90 <= P2 <= 180 and 1 <= step <= 90 |
| CalibrationProperties.RunP2Pinned | main.ts:136 | when P2 is selected, P1 is still 0, and once a direction is recorded P2 is 90 |
| CalibrationProperties.SessionTuningP1 | main.ts:163-205 | presses B, A, A give P1 = 90 with step 90 going Up; a further B gives step 45 going Down and P1 = 45 |
| CalibrationProperties.SessionTuningP2 | main.ts:163-205 | presses A, B, B, A leave P2 at 90 with step 45 going Up and P1 at 0 |
| CalibratorMachine.Calibrator.constructor | main.ts:41-78 | the fields hold the initial values, and the trace is the two stop writes then the start prompt |
| CalibratorMachine.Calibrator.TurnAround | main.ts:58-68 | the trace gains both servos at 45 then both at 90, and only the trace may change |
| CalibratorMachine.Calibrator.TestForward | main.ts:83-105 | no calibration field changes; the trace gains turn-around, drive at the current P1 and P2, stop, turn-around |
| CalibratorMachine.Calibrator.UpdateVerticalDirection | main.ts:107-116 | the fields become CalibrationSpec.UpdateVerticalDirection of the old fields; only the direction and step may change |
| CalibratorMachine.Calibrator.UpdateP1PinValue | main.ts:119-132 | the strict-comparison clamp gives CalibrationSpec.UpdateP1PinValue, and the new P1 is displayed |
| CalibratorMachine.Calibrator.UpdateP2PinValue | main.ts:134-147 | the inclusive-comparison clamp over P1's base gives CalibrationSpec.UpdateP2PinValue, and the new P2 is displayed |
| CalibratorMachine.Calibrator.UpdateOutputValue | main.ts:151-160 | the fields become CalibrationSpec.UpdateOutputValue of the old fields, and the selected pin's new output is displayed |
| CalibratorMachine.Calibrator.ButtonA | main.ts:163-183 | the fields become Press(old, A) and the trace gains Emitted(old, A) |
| CalibratorMachine.Calibrator.ButtonB | main.ts:185-205 | the fields become Press(old, B) and the trace gains Emitted(old, B) |
| CalibratorMachine.TuneP1Session | main.ts:163-205 | a fresh calibrator pressed B, A, A, B ends with P1 = 45 and step 45 |

## Left out

- Pauses (`control.waitMicros`) are left out. They change no state, and the turn-around time `180/270*1e6` is not an integer. So the trace records the servo writes and display calls of a forward test but no timings, and the timing constants (`DEGREES_PER_SECOND`, `HALF_TURN_DEGREES`, `MS_PER_SECOND`, `MICROSECONDS_TO_PAUSE`) and the unused `DISTANCE_PER_SECOND` do not appear.
- Servo signal generation and display rendering are hardware. A servo write or display call appears only as an `Output` entry in the trace.
- Callback registration (`input.onButtonPressed`) is left out. The handlers are two methods called one at a time, and `Run` applies presses in sequence.
- CalibrationSpec.UpdateP1PinValue and CalibrationSpec.UpdateP2PinValue require a recorded direction. Their only caller, `updateOutputValue`, records one first. The `NaN` that an unset direction would give in the program is not modelled.
