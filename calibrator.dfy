/**
 * The calibrator as the program runs it: the six module-level variables are
 * the fields of one Calibrator object, each update routine is a method that
 * reassigns them statement by statement, and the two button handlers are the
 * methods ButtonA and ButtonB. Calls into the hardware (servo writes, the
 * display) are appended to the trace `outputs`.
 *
 * Every method is proved to do what the matching function of CalibrationSpec
 * says, so the properties of calibration_properties.dfy hold of the object.
 */
module CalibratorMachine {
  import opened CalibrationSpec

  class Calibrator {
    var currentP1Output: int
    var currentP2Output: int
    var currentStepJump: int
    var currentVerticalDirection: Option<VerticalDirection>
    var pinThatNeedsChanging: Option<Pin>
    var firstTest: bool
    /** Every servo write and display call so far, oldest first. */
    var outputs: seq<Output>

    /** The calibration variables as a value. */
    function Current(): State
      reads this
    {
      State(currentP1Output, currentP2Output, currentStepJump,
            currentVerticalDirection, pinThatNeedsChanging, firstTest)
    }

    /** Power-on: stop both servos, show the start prompt, set the initial values. */
    constructor ()
      ensures Current() == Initial()
      ensures Valid(Current())
      ensures outputs == StartupOutputs()
    {
      outputs := [ServoWrite(P1, STOP_OUTPUT), ServoWrite(P2, STOP_OUTPUT)];
      outputs := outputs + [ShowString(START_PROMPT)];
      currentP1Output := INITIAL_P1_OUTPUT;
      currentP2Output := INITIAL_P2_OUTPUT;
      currentStepJump := INITIAL_STEP_JUMP;
      currentVerticalDirection := None;
      pinThatNeedsChanging := None;
      firstTest := true;
    }

    /** `turnAround`: spin in place, then stop. Only the trace changes. */
    method TurnAround()
      modifies this`outputs
      ensures outputs == old(outputs) + TurnAroundWrites()
    {
      outputs := outputs + [ServoWrite(P1, TURN_OUTPUT), ServoWrite(P2, TURN_OUTPUT)];
      outputs := outputs + [ServoWrite(P1, STOP_OUTPUT), ServoWrite(P2, STOP_OUTPUT)];
    }

    /** `testForward`: turn, drive at the current outputs, stop, turn back. No calibration variable changes. */
    method TestForward()
      modifies this`outputs
      ensures Current() == old(Current())
      ensures outputs == old(outputs) + ForwardTestWrites(currentP1Output, currentP2Output)
    {
      TurnAround();
      outputs := outputs + [ServoWrite(P1, currentP1Output), ServoWrite(P2, currentP2Output)];
      outputs := outputs + [ServoWrite(P1, STOP_OUTPUT), ServoWrite(P2, STOP_OUTPUT)];
      TurnAround();
    }

    /** `updateVerticalDirection`. */
    method UpdateVerticalDirection(direction: VerticalDirection)
      modifies this`currentVerticalDirection, this`currentStepJump
      ensures Current() == CalibrationSpec.UpdateVerticalDirection(old(Current()), direction)
    {
      if currentVerticalDirection.None? {
        currentVerticalDirection := Some(direction);
      }
      if currentVerticalDirection != Some(direction) {
        currentStepJump := CeilHalf(currentStepJump);
        currentVerticalDirection := Some(Negate(currentVerticalDirection.value));
      }
    }

    /** `updateP1PinValue`: the clamp uses strict comparisons. */
    method UpdateP1PinValue()
      requires currentVerticalDirection.Some?
      modifies this`currentP1Output, this`outputs
      ensures Current() == CalibrationSpec.UpdateP1PinValue(old(Current()))
      ensures outputs == old(outputs) + [ShowNumber(currentP1Output)]
    {
      var newP1Output := currentP1Output + Value(currentVerticalDirection.value) * currentStepJump;
      if newP1Output > P1_LIMITS.max {
        newP1Output := P1_LIMITS.max;
      }
      if newP1Output < P1_LIMITS.min {
        newP1Output := P1_LIMITS.min;
      }
      currentP1Output := newP1Output;
      outputs := outputs + [ShowNumber(currentP1Output)];
    }

    /** `updateP2PinValue`: the base is P1's output, and the clamp uses inclusive comparisons. */
    method UpdateP2PinValue()
      requires currentVerticalDirection.Some?
      modifies this`currentP2Output, this`outputs
      ensures Current() == CalibrationSpec.UpdateP2PinValue(old(Current()))
      ensures outputs == old(outputs) + [ShowNumber(currentP2Output)]
    {
      var newP2Output := currentP1Output + Value(currentVerticalDirection.value) * currentStepJump;
      if newP2Output >= P2_LIMITS.max {
        newP2Output := P2_LIMITS.max;
      }
      if newP2Output <= P2_LIMITS.min {
        newP2Output := P2_LIMITS.min;
      }
      currentP2Output := newP2Output;
      outputs := outputs + [ShowNumber(currentP2Output)];
    }

    /** `updateOutputValue`: direction first, then the selected pin (P2 unless P1 is selected). */
    method UpdateOutputValue(direction: VerticalDirection)
      modifies this
      ensures Current() == CalibrationSpec.UpdateOutputValue(old(Current()), direction)
      ensures outputs == old(outputs) +
        [ShowNumber(if pinThatNeedsChanging == Some(P1) then currentP1Output else currentP2Output)]
    {
      UpdateVerticalDirection(direction);
      if pinThatNeedsChanging == Some(P1) {
        UpdateP1PinValue();
      } else {
        UpdateP2PinValue();
      }
    }

    /** The handler of button A (a veer to the left). */
    method ButtonA()
      modifies this
      ensures Current() == Press(old(Current()), A)
      ensures outputs == old(outputs) + Emitted(old(Current()), A)
    {
      if firstTest {
        TestForward();
        firstTest := false;
        outputs := outputs + [ShowString(DIRECTION_PROMPT)];
        return;
      }
      if pinThatNeedsChanging.None? {
        pinThatNeedsChanging := Some(P1);
        outputs := outputs + [ShowNumber(P1_LIMITS.min)];
        return;
      }
      UpdateOutputValue(Up);
      TestForward();
    }

    /** The handler of button B (a veer to the right). */
    method ButtonB()
      modifies this
      ensures Current() == Press(old(Current()), B)
      ensures outputs == old(outputs) + Emitted(old(Current()), B)
    {
      if firstTest {
        TestForward();
        firstTest := false;
        outputs := outputs + [ShowString(DIRECTION_PROMPT)];
        return;
      }
      if pinThatNeedsChanging.None? {
        pinThatNeedsChanging := Some(P2);
        outputs := outputs + [ShowNumber(P2_LIMITS.max)];
        return;
      }
      UpdateOutputValue(Down);
      TestForward();
    }
  }

  /** A client: the session of SessionTuningP1, driven through the object. */
  method TuneP1Session() returns (p1: int, step: int)
    ensures p1 == 45 && step == 45
  {
    var c := new Calibrator();
    c.ButtonB();
    c.ButtonA();
    c.ButtonA();
    c.ButtonB();
    p1, step := c.currentP1Output, c.currentStepJump;
  }
}
