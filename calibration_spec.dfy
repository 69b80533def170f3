/**
 * The calibration state of the two-servo forward calibrator and its
 * transitions, as pure functions on values.
 *
 * The program keeps six module-level variables; here they are the fields of
 * the datatype State, and every routine that reassigns them is a function from
 * the old State to the new one. The class in calibrator.dfy runs the same
 * routines statement by statement and is proved to agree with these
 * functions.
 */
module CalibrationSpec {

  /** An unset-or-set value: the program's `undefined` sentinels. */
  datatype Option<T> = None | Some(value: T)

  /** The sign of an adjustment. The program gives Up the number 1 and Down the number -1. */
  datatype VerticalDirection = Up | Down

  /** The two servo channels (also the program's choice of which one to tune). */
  datatype Pin = P1 | P2

  /** The two buttons of the board. */
  datatype Button = A | B

  /** The range a servo output is held in, fields in the order the program declares them. */
  datatype Limits = Limits(max: int, min: int)

  /** One call into the hardware: a servo write or a message on the display. */
  datatype Output =
    | ServoWrite(pin: Pin, value: int)
    | ShowNumber(n: int)
    | ShowString(text: string)

  const P1_LIMITS: Limits := Limits(90, 0)
  const P2_LIMITS: Limits := Limits(180, 90)
  const INITIAL_P1_OUTPUT: int := 0
  const INITIAL_P2_OUTPUT: int := 180
  const INITIAL_STEP_JUMP: int := 90
  /** The servo value at which a continuous servo stands still. */
  const STOP_OUTPUT: int := 90
  /** The servo value both servos get while the robot spins in place. */
  const TURN_OUTPUT: int := 45
  const START_PROMPT: string := "Press A or B to begin"
  const DIRECTION_PROMPT: string := "A if veers left, B if veers right"

  /**
   * The number the program attaches to a direction. It is never 0, so the
   * program's truthiness test on a direction fails only when it is unset.
   */
  function Value(d: VerticalDirection): (r: int)
    ensures r * r == 1
    ensures (r > 0) == (d == Up)
  {
    if d == Up then 1 else -1
  }

  /** The direction whose number is the negation of d's: the program's `-currentVerticalDirection`. */
  function Negate(d: VerticalDirection): (r: VerticalDirection)
    ensures Value(r) == -Value(d)
    ensures r != d
  {
    if d == Up then Down else Up
  }

  /** `Math.ceil(x / 2)`: the least integer r with x <= 2 * r. */
  function CeilHalf(x: int): (r: int)
    ensures x <= 2 * r <= x + 1
  {
    (x + 1) / 2
  }

  function Distance(x: int, y: int): nat {
    if x <= y then y - x else x - y
  }

  /** The point of [lim.min, lim.max] nearest to x. */
  function Clamp(x: int, lim: Limits): (r: int)
    requires lim.min <= lim.max
    ensures lim.min <= r <= lim.max
    ensures lim.min <= x <= lim.max ==> r == x
    ensures forall y :: lim.min <= y <= lim.max ==> Distance(x, r) <= Distance(x, y)
  {
    if x > lim.max then lim.max else if x < lim.min then lim.min else x
  }

  /** The step after k reversals, starting from step x. */
  function Halve(x: int, k: nat): (r: int)
    ensures 1 <= x ==> 1 <= r <= x
    decreases k
  {
    if k == 0 then x else Halve(CeilHalf(x), k - 1)
  }

  /** The six calibration variables. */
  datatype State = State(
    p1Output: int,
    p2Output: int,
    stepJump: int,
    verticalDirection: Option<VerticalDirection>,
    pinThatNeedsChanging: Option<Pin>,
    firstTest: bool)

  /** The state at power-on. */
  function Initial(): (r: State)
    ensures Valid(r) && r.firstTest
  {
    State(INITIAL_P1_OUTPUT, INITIAL_P2_OUTPUT, INITIAL_STEP_JUMP, None, None, true)
  }

  /** The direction a button reports while adjusting: A is Up, B is Down. */
  function DirectionOf(b: Button): VerticalDirection {
    if b == A then Up else Down
  }

  /** The pin a button selects when no pin is selected yet: A is P1, B is P2. */
  function PinChosenBy(b: Button): Pin {
    if b == A then P1 else P2
  }

  /**
   * `updateVerticalDirection`: adopt d when no direction is recorded; when the
   * recorded direction differs from d, ceiling-halve the step and negate the
   * recorded direction.
   */
  function UpdateVerticalDirection(s: State, d: VerticalDirection): (r: State)
    ensures r.verticalDirection == Some(d)
    ensures r.stepJump == if s.verticalDirection == Some(Negate(d)) then CeilHalf(s.stepJump) else s.stepJump
    ensures r == s.(verticalDirection := r.verticalDirection, stepJump := r.stepJump)
  {
    var recorded := if s.verticalDirection.None? then d else s.verticalDirection.value;
    if recorded != d then
      s.(stepJump := CeilHalf(s.stepJump), verticalDirection := Some(Negate(recorded)))
    else
      s.(verticalDirection := Some(recorded))
  }

  /** The amount an adjustment adds to its base: direction times step. */
  function Delta(s: State): int
    requires s.verticalDirection.Some?
  {
    Value(s.verticalDirection.value) * s.stepJump
  }

  /** `updateP1PinValue`: P1 moves by direction times step, clamped to P1's limits. */
  function UpdateP1PinValue(s: State): (r: State)
    requires s.verticalDirection.Some?
    ensures P1_LIMITS.min <= r.p1Output <= P1_LIMITS.max
    ensures r == s.(p1Output := r.p1Output)
  {
    s.(p1Output := Clamp(s.p1Output + Delta(s), P1_LIMITS))
  }

  /**
   * `updateP2PinValue`: P2 becomes P1's output (not P2's) plus direction times
   * step, clamped to P2's limits.
   */
  function UpdateP2PinValue(s: State): (r: State)
    requires s.verticalDirection.Some?
    ensures P2_LIMITS.min <= r.p2Output <= P2_LIMITS.max
    ensures r == s.(p2Output := r.p2Output)
  {
    s.(p2Output := Clamp(s.p1Output + Delta(s), P2_LIMITS))
  }

  /** `updateOutputValue`: the direction update, then the update of the selected pin (P2 unless P1 is selected). */
  function UpdateOutputValue(s: State, d: VerticalDirection): (r: State)
    ensures r.verticalDirection == Some(d)
    ensures r.pinThatNeedsChanging == s.pinThatNeedsChanging && r.firstTest == s.firstTest
  {
    var t := UpdateVerticalDirection(s, d);
    if t.pinThatNeedsChanging == Some(P1) then UpdateP1PinValue(t) else UpdateP2PinValue(t)
  }

  /** The effect of one button press on the calibration state (the two handlers). */
  function Press(s: State, b: Button): (r: State)
    ensures !r.firstTest
    ensures !s.firstTest ==> r.pinThatNeedsChanging.Some?
    ensures s.pinThatNeedsChanging.Some? ==> r.pinThatNeedsChanging == s.pinThatNeedsChanging
  {
    if s.firstTest then s.(firstTest := false)
    else if s.pinThatNeedsChanging.None? then s.(pinThatNeedsChanging := Some(PinChosenBy(b)))
    else UpdateOutputValue(s, DirectionOf(b))
  }

  /** True when pressing b reverses the recorded direction (and so halves the step). */
  predicate IsReversal(s: State, b: Button) {
    !s.firstTest && s.pinThatNeedsChanging.Some? &&
    s.verticalDirection == Some(Negate(DirectionOf(b)))
  }

  /** The state after the presses bs, one at a time, in order. */
  function Run(s: State, bs: seq<Button>): State
    decreases |bs|
  {
    if bs == [] then s else Run(Press(s, bs[0]), bs[1..])
  }

  /** How many of the presses bs reverse the direction. */
  function Reversals(s: State, bs: seq<Button>): nat
    decreases |bs|
  {
    if bs == [] then 0
    else (if IsReversal(s, bs[0]) then 1 else 0) + Reversals(Press(s, bs[0]), bs[1..])
  }

  /** True when every entry of t is a servo write. */
  predicate AllServoWrites(t: seq<Output>) {
    forall i :: 0 <= i < |t| ==> t[i].ServoWrite?
  }

  /** True when t ends by stopping P1 and then P2. */
  predicate EndsStopped(t: seq<Output>) {
    |t| >= 2 && t[|t| - 2] == ServoWrite(P1, STOP_OUTPUT) && t[|t| - 1] == ServoWrite(P2, STOP_OUTPUT)
  }

  /** The servo writes of `turnAround`: spin both servos, then stop both. */
  function TurnAroundWrites(): (r: seq<Output>)
    ensures AllServoWrites(r) && EndsStopped(r)
    ensures ServoWrite(P1, TURN_OUTPUT) in r && ServoWrite(P2, TURN_OUTPUT) in r
  {
    [ServoWrite(P1, TURN_OUTPUT), ServoWrite(P2, TURN_OUTPUT),
     ServoWrite(P1, STOP_OUTPUT), ServoWrite(P2, STOP_OUTPUT)]
  }

  /** The servo writes of `testForward` when the outputs are p1 and p2. */
  function ForwardTestWrites(p1: int, p2: int): (r: seq<Output>)
    ensures AllServoWrites(r) && EndsStopped(r)
    ensures ServoWrite(P1, p1) in r && ServoWrite(P2, p2) in r
  {
    TurnAroundWrites() +
    [ServoWrite(P1, p1), ServoWrite(P2, p2), ServoWrite(P1, STOP_OUTPUT), ServoWrite(P2, STOP_OUTPUT)] +
    TurnAroundWrites()
  }

  /** What the program sends to the hardware before any button is pressed. */
  function StartupOutputs(): (r: seq<Output>)
    ensures |r| >= 1 && EndsStopped(r[..|r| - 1]) && r[|r| - 1] == ShowString(START_PROMPT)
  {
    [ServoWrite(P1, STOP_OUTPUT), ServoWrite(P2, STOP_OUTPUT), ShowString(START_PROMPT)]
  }

  /** What one press of b sends to the hardware, in order. */
  function Emitted(s: State, b: Button): (r: seq<Output>)
    ensures |r| >= 1
    ensures s.firstTest ==> r[|r| - 1] == ShowString(DIRECTION_PROMPT)
    ensures !s.firstTest ==> r[0].ShowNumber?
    ensures ServoWrite(P1, STOP_OUTPUT) in r <==> (s.firstTest || s.pinThatNeedsChanging.Some?)
  {
    if s.firstTest then ForwardTestWrites(s.p1Output, s.p2Output) + [ShowString(DIRECTION_PROMPT)]
    else if s.pinThatNeedsChanging.None? then
      [ShowNumber(if b == A then P1_LIMITS.min else P2_LIMITS.max)]
    else
      var u := UpdateOutputValue(s, DirectionOf(b));
      [ShowNumber(if u.pinThatNeedsChanging == Some(P1) then u.p1Output else u.p2Output)] +
      ForwardTestWrites(u.p1Output, u.p2Output)
  }

  /** Every state reachable from Initial() satisfies this (see calibration_properties.dfy). */
  predicate Valid(s: State) {
    && P1_LIMITS.min <= s.p1Output <= P1_LIMITS.max
    && P2_LIMITS.min <= s.p2Output <= P2_LIMITS.max
    && 1 <= s.stepJump <= INITIAL_STEP_JUMP
    && (s.firstTest ==> s.pinThatNeedsChanging.None?)
    && (s.pinThatNeedsChanging.None? ==>
          && s.verticalDirection.None?
          && s.p1Output == INITIAL_P1_OUTPUT
          && s.p2Output == INITIAL_P2_OUTPUT
          && s.stepJump == INITIAL_STEP_JUMP)
  }
}
