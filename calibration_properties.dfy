/**
 * What the calibrator promises, proved about the transition functions of
 * CalibrationSpec: the three phases of a button press, the step schedule,
 * the clamping bounds of every reachable state, the pin choice that never
 * changes, and what the P2 update's choice of base does to P2.
 */
module CalibrationProperties {
  import opened CalibrationSpec

  // ---------------------------------------------------------------------
  // The three phases of a press
  // ---------------------------------------------------------------------

  /** The first press of either button only ends the first test; it runs the forward test and asks for a direction. */
  lemma FirstPress(s: State, b: Button)
    requires s.firstTest
    ensures Press(s, b) == s.(firstTest := false)
    ensures Emitted(s, b) == ForwardTestWrites(s.p1Output, s.p2Output) + [ShowString(DIRECTION_PROMPT)]
  {
  }

  /** With no pin selected after the first test, A selects P1 and B selects P2; nothing else changes and no servo is written. */
  lemma SelectPin(s: State, b: Button)
    requires !s.firstTest && s.pinThatNeedsChanging.None?
    ensures Press(s, b) == s.(pinThatNeedsChanging := Some(if b == A then P1 else P2))
    ensures Emitted(s, b) == [ShowNumber(if b == A then P1_LIMITS.min else P2_LIMITS.max)]
  {
  }

  /**
   * Adjusting: A applies Up and B applies Down; the step is ceiling-halved
   * exactly on a reversal; only the selected pin's output moves, to the clamp
   * of P1's output plus direction times the new step; that output is
   * displayed and the forward test then drives the new outputs.
   */
  lemma AdjustPress(s: State, b: Button)
    requires !s.firstTest && s.pinThatNeedsChanging.Some?
    ensures var r := Press(s, b);
      && r.verticalDirection == Some(if b == A then Up else Down)
      && r.stepJump == (if IsReversal(s, b) then CeilHalf(s.stepJump) else s.stepJump)
      && r.pinThatNeedsChanging == s.pinThatNeedsChanging
      && !r.firstTest
      && (s.pinThatNeedsChanging == Some(P1) ==>
            && r.p1Output == Clamp(s.p1Output + Value(DirectionOf(b)) * r.stepJump, P1_LIMITS)
            && r.p2Output == s.p2Output)
      && (s.pinThatNeedsChanging == Some(P2) ==>
            && r.p2Output == Clamp(s.p1Output + Value(DirectionOf(b)) * r.stepJump, P2_LIMITS)
            && r.p1Output == s.p1Output)
      && Emitted(s, b)[0] == ShowNumber(if s.pinThatNeedsChanging == Some(P1) then r.p1Output else r.p2Output)
      && Emitted(s, b)[1..] == ForwardTestWrites(r.p1Output, r.p2Output)
  {
  }

  /** The handlers' constants: A selects P1 and applies Up, B selects P2 and applies Down. */
  lemma HandlerConstants()
    ensures PinChosenBy(A) == P1 && DirectionOf(A) == Up && Value(DirectionOf(A)) == 1
    ensures PinChosenBy(B) == P2 && DirectionOf(B) == Down && Value(DirectionOf(B)) == -1
  {
  }

  /**
   * Once the step is 1, pressing the button of the recorded direction keeps
   * the step at 1 and moves P1 by one (pinned at 0 or 90 at its limits);
   * with P2 selected and P1 at 0, P2 stays at 90.
   */
  lemma SettledNudge(s: State, b: Button)
    requires !s.firstTest && s.pinThatNeedsChanging.Some?
    requires s.stepJump == 1 && s.verticalDirection == Some(DirectionOf(b))
    ensures Press(s, b).stepJump == 1 && Press(s, b).verticalDirection == s.verticalDirection
    ensures s.pinThatNeedsChanging == Some(P1) ==>
      Press(s, b).p1Output == Clamp(s.p1Output + (if b == A then 1 else -1), P1_LIMITS)
    ensures s.pinThatNeedsChanging == Some(P2) && s.p1Output == 0 ==> Press(s, b).p2Output == 90
  {
  }

  // ---------------------------------------------------------------------
  // Runs of presses
  // ---------------------------------------------------------------------

  /** Running bs then cs is running bs + cs. */
  lemma {:induction false} RunAppend(s: State, bs: seq<Button>, cs: seq<Button>)
    ensures Run(s, bs + cs) == Run(Run(s, bs), cs)
    decreases |bs|
  {
    if bs == [] {
      assert bs + cs == cs;
    } else {
      assert (bs + cs)[0] == bs[0];
      assert (bs + cs)[1..] == bs[1..] + cs;
      RunAppend(Press(s, bs[0]), bs[1..], cs);
    }
  }

  /** Once a pin is selected, no later press changes the selection. */
  lemma {:induction false} RunKeepsPin(s: State, bs: seq<Button>)
    requires s.pinThatNeedsChanging.Some?
    ensures Run(s, bs).pinThatNeedsChanging == s.pinThatNeedsChanging
    decreases |bs|
  {
    if bs != [] {
      RunKeepsPin(Press(s, bs[0]), bs[1..]);
    }
  }

  /** The pin chosen by the second press of a run is the pin of every later state. */
  lemma PinChoiceIsFinal(bs: seq<Button>, i: nat)
    requires 2 <= i <= |bs|
    ensures Run(Initial(), bs[..i]).pinThatNeedsChanging == Some(PinChosenBy(bs[1]))
  {
    assert bs[..i] == bs[..2] + bs[2..i];
    RunAppend(Initial(), bs[..2], bs[2..i]);
    var s1 := Press(Initial(), bs[0]);
    var s2 := Run(Initial(), bs[..2]);
    assert s2 == Run(Press(s1, bs[1]), []) by {
      assert bs[..2][1..] == [bs[1]];
      assert [bs[1]][1..] == [];
    }
    assert s2.pinThatNeedsChanging == Some(PinChosenBy(bs[1]));
    RunKeepsPin(s2, bs[2..i]);
  }

  // ---------------------------------------------------------------------
  // The step schedule
  // ---------------------------------------------------------------------

  /** A press changes the step only on a reversal, and then to its ceiling half. */
  lemma PressStep(s: State, b: Button)
    ensures Press(s, b).stepJump == if IsReversal(s, b) then CeilHalf(s.stepJump) else s.stepJump
  {
  }

  /** The step after any run is the starting step halved once per reversal. */
  lemma {:induction false} RunStepIsHalving(s: State, bs: seq<Button>)
    ensures Run(s, bs).stepJump == Halve(s.stepJump, Reversals(s, bs))
    decreases |bs|
  {
    if bs != [] {
      var t := Press(s, bs[0]);
      PressStep(s, bs[0]);
      RunStepIsHalving(t, bs[1..]);
      if IsReversal(s, bs[0]) {
        assert Reversals(s, bs) == 1 + Reversals(t, bs[1..]);
      } else {
        assert Reversals(s, bs) == Reversals(t, bs[1..]);
      }
    }
  }

  /** Halving j times and then k times is halving j + k times. */
  lemma {:induction false} HalveSplit(x: int, j: nat, k: nat)
    ensures Halve(x, j + k) == Halve(Halve(x, j), k)
    decreases j
  {
    if j > 0 {
      HalveSplit(CeilHalf(x), j - 1, k);
    }
  }

  /** More reversals never give a larger step. */
  lemma {:induction false} HalveNonIncreasing(x: int, j: nat, k: nat)
    requires 1 <= x && j <= k
    ensures Halve(x, k) <= Halve(x, j)
  {
    HalveSplit(x, j, k - j);
  }

  /** The schedule from the initial step: 90, 45, 23, 12, 6, 3, 2, 1. */
  lemma HalvingSchedule()
    ensures Halve(INITIAL_STEP_JUMP, 0) == 90 && Halve(INITIAL_STEP_JUMP, 1) == 45
    ensures Halve(INITIAL_STEP_JUMP, 2) == 23 && Halve(INITIAL_STEP_JUMP, 3) == 12
    ensures Halve(INITIAL_STEP_JUMP, 4) == 6 && Halve(INITIAL_STEP_JUMP, 5) == 3
    ensures Halve(INITIAL_STEP_JUMP, 6) == 2 && Halve(INITIAL_STEP_JUMP, 7) == 1
  {
  }

  /** From the seventh reversal on, the step is 1 for good. */
  lemma HalveSettles(k: nat)
    requires 7 <= k
    ensures Halve(INITIAL_STEP_JUMP, k) == 1
  {
    HalvingSchedule();
    HalveSplit(INITIAL_STEP_JUMP, 7, k - 7);
  }

  /** Along a run from power-on the step never grows and never drops below 1. */
  lemma StepNonIncreasing(bs: seq<Button>, i: nat, j: nat)
    requires i <= j <= |bs|
    ensures 1 <= Run(Initial(), bs[..j]).stepJump <= Run(Initial(), bs[..i]).stepJump
  {
    var si := Run(Initial(), bs[..i]);
    assert bs[..j] == bs[..i] + bs[i..j];
    RunAppend(Initial(), bs[..i], bs[i..j]);
    RunStepIsHalving(Initial(), bs[..i]);
    RunStepIsHalving(si, bs[i..j]);
  }

  /** Every reachable step is a term of the schedule 90, 45, 23, 12, 6, 3, 2, 1. */
  lemma ReachableStep(bs: seq<Button>)
    ensures Run(Initial(), bs).stepJump in {90, 45, 23, 12, 6, 3, 2, 1}
  {
    var k := Reversals(Initial(), bs);
    RunStepIsHalving(Initial(), bs);
    HalvingSchedule();
    if 7 <= k {
      HalveSettles(k);
    }
  }

  // ---------------------------------------------------------------------
  // Bounds of every reachable state
  // ---------------------------------------------------------------------

  /** A press keeps the outputs in their limits, the step in [1, 90] and the phases consistent. */
  lemma PressPreservesValid(s: State, b: Button)
    requires Valid(s)
    ensures Valid(Press(s, b))
  {
  }

  lemma {:induction false} RunPreservesValid(s: State, bs: seq<Button>)
    requires Valid(s)
    ensures Valid(Run(s, bs))
    decreases |bs|
  {
    if bs != [] {
      PressPreservesValid(s, bs[0]);
      RunPreservesValid(Press(s, bs[0]), bs[1..]);
    }
  }

  /** Every state reachable from power-on has 0 <= P1 <= 90, 90 <= P2 <= 180 and 1 <= step <= 90. */
  lemma ReachableValid(bs: seq<Button>)
    ensures var r := Run(Initial(), bs);
      && 0 <= r.p1Output <= 90 && 90 <= r.p2Output <= 180
      && 1 <= r.stepJump <= 90
  {
    RunPreservesValid(Initial(), bs);
  }

  // ---------------------------------------------------------------------
  // The P2 update's base
  // ---------------------------------------------------------------------

  /**
   * With P2 selected, P1 never leaves its initial 0, and once a direction is
   * recorded P2 sits at its minimum 90.
   */
  predicate P2Pinned(s: State) {
    s.pinThatNeedsChanging == Some(P2) ==>
      s.p1Output == INITIAL_P1_OUTPUT &&
      (s.verticalDirection.Some? ==> s.p2Output == P2_LIMITS.min)
  }

  lemma PressKeepsP2Pinned(s: State, b: Button)
    requires Valid(s) && P2Pinned(s)
    ensures P2Pinned(Press(s, b))
  {
  }

  lemma {:induction false} RunKeepsP2Pinned(s: State, bs: seq<Button>)
    requires Valid(s) && P2Pinned(s)
    ensures P2Pinned(Run(s, bs))
    decreases |bs|
  {
    if bs != [] {
      PressKeepsP2Pinned(s, bs[0]);
      PressPreservesValid(s, bs[0]);
      RunKeepsP2Pinned(Press(s, bs[0]), bs[1..]);
    }
  }

  /**
   * Because the P2 update adds to P1's output, choosing P2 can never move P2
   * off 90 after the first adjustment: P1 stays 0 and 0 plus or minus a step
   * of at most 90 always clamps to 90.
   */
  lemma RunP2Pinned(bs: seq<Button>)
    requires Run(Initial(), bs).pinThatNeedsChanging == Some(P2)
    ensures Run(Initial(), bs).p1Output == 0
    ensures Run(Initial(), bs).verticalDirection.Some? ==> Run(Initial(), bs).p2Output == 90
  {
    RunKeepsP2Pinned(Initial(), bs);
  }

  // ---------------------------------------------------------------------
  // Worked sessions
  // ---------------------------------------------------------------------

  /** Start, choose P1, press A (P1 jumps to its maximum), then B (a reversal: step 45, P1 back to 45). */
  lemma SessionTuningP1()
    ensures Run(Initial(), [B, A, A]) == State(90, 180, 90, Some(Up), Some(P1), false)
    ensures Run(Initial(), [B, A, A, B]) == State(45, 180, 45, Some(Down), Some(P1), false)
  {
  }

  /** Start, choose P2, press B, then A: P2 drops to 90 and stays there. */
  lemma SessionTuningP2()
    ensures Run(Initial(), [A, B, B, A]) == State(0, 90, 45, Some(Up), Some(P2), false)
  {
  }
}
