/** The head-angle tracker of the controller page (src/pages/index.tsx,
    `moveHead`): the head angle is an integer in [0, 2000) that starts at
    1000 and moves by relative offsets. The upper side wraps with `% 2000`,
    a negative result is clamped to 0. */
module HeadAngle {

  const ANGLE_RANGE := 2000
  const INITIAL_ANGLE := 1000
  /** The offset the head buttons and the `t`/`g` keys ask for. */
  const HEAD_STEP := 20

  /** JavaScript's `x % 2000` on an integer x: the remainder of division
      truncated toward zero, which takes the sign of the dividend (Dafny's
      own `%` is Euclidean and never negative). */
  function JsRem(a: int): (r: int)
    ensures -ANGLE_RANGE < r < ANGLE_RANGE
    ensures a >= 0 ==> r == a % ANGLE_RANGE
    ensures a < 0 ==> r == (if a % ANGLE_RANGE == 0 then 0 else a % ANGLE_RANGE - ANGLE_RANGE)
  {
    if a >= 0 then a % ANGLE_RANGE
    else
      var t := (-a) % ANGLE_RANGE;
      RemainderOfNegation(-a);
      -t
  }

  /** Negating a positive dividend turns a non-zero remainder t into 2000 - t. */
  lemma RemainderOfNegation(b: int)
    requires b > 0
    ensures (-b) % ANGLE_RANGE == (if b % ANGLE_RANGE == 0 then 0 else ANGLE_RANGE - b % ANGLE_RANGE)
  {
    var q, t := b / ANGLE_RANGE, b % ANGLE_RANGE;
    assert b == ANGLE_RANGE * q + t;
    if t == 0 {
      assert -b == ANGLE_RANGE * (-q);
    } else {
      assert -b == ANGLE_RANGE * (-q - 1) + (ANGLE_RANGE - t);
    }
  }

  /** The angle `moveHead(offset)` stores: `(current + offset) % 2000`,
      replaced by 0 when negative. (A dividend that is a negative multiple
      of 2000 gives JavaScript's -0, which is not `< 0` and prints as 0; its
      value is the 0 this function returns.) */
  function NewAngle(current: int, offset: int): (r: int)
    ensures 0 <= r < ANGLE_RANGE
  {
    var wrapped := JsRem(current + offset);
    if wrapped < 0 then 0 else wrapped
  }

  /** The truncating remainder followed by the clamp is the same as a
      Euclidean remainder on a non-negative sum and 0 on a negative one. */
  lemma NewAngleReference(current: int, offset: int)
    ensures NewAngle(current, offset)
         == if current + offset < 0 then 0 else (current + offset) % ANGLE_RANGE
  {
  }

  /** The three regimes of the tracker: exact inside the range, wrapping
      downward by whole turns above it, clamped (not wrapped) below it. */
  lemma NewAngleRegimes(current: int, offset: int)
    ensures 0 <= current + offset < ANGLE_RANGE ==> NewAngle(current, offset) == current + offset
    ensures current + offset >= ANGLE_RANGE ==>
      NewAngle(current, offset) < current + offset
      && (current + offset - NewAngle(current, offset)) % ANGLE_RANGE == 0
    ensures current + offset < 0 ==> NewAngle(current, offset) == 0
  {
  }

  /** Wrap versus clamp: 1990 + 20 gives 10, while 5 - 20 gives 0. */
  lemma WrapAndClampExamples()
    ensures NewAngle(1990, 20) == 10
    ensures NewAngle(5, -20) == 0
    ensures NewAngle(0, -20) == 0 && NewAngle(1980, 20) == 0
  {
  }

  /** The angle after applying `offsets` one after the other, as repeated
      head presses do. */
  function Track(angle: int, offsets: seq<int>): (r: int)
    decreases |offsets|
  {
    if offsets == [] then angle else Track(NewAngle(angle, offsets[0]), offsets[1..])
  }

  /** A step of +-20 from a multiple of 20 lands on a multiple of 20. */
  lemma StepStaysOnGrid(angle: int, offset: int)
    requires angle % HEAD_STEP == 0
    requires offset == HEAD_STEP || offset == -HEAD_STEP
    ensures NewAngle(angle, offset) % HEAD_STEP == 0
  {
    var sum := angle + offset;
    assert sum % HEAD_STEP == 0;
    if sum >= 0 {
      var q := sum / ANGLE_RANGE;
      assert sum == ANGLE_RANGE * q + sum % ANGLE_RANGE;
      assert ANGLE_RANGE * q == HEAD_STEP * (100 * q);
    }
  }

  /** Starting from the initial 1000, any sequence of head presses (each
      +20 or -20) keeps the angle in [0, 2000) and on a multiple of 20. */
  lemma {:induction false} PressesStayOnGrid(angle: int, offsets: seq<int>)
    requires 0 <= angle < ANGLE_RANGE && angle % HEAD_STEP == 0
    requires forall i :: 0 <= i < |offsets| ==> offsets[i] == HEAD_STEP || offsets[i] == -HEAD_STEP
    ensures 0 <= Track(angle, offsets) < ANGLE_RANGE
    ensures Track(angle, offsets) % HEAD_STEP == 0
    decreases |offsets|
  {
    if offsets != [] {
      StepStaysOnGrid(angle, offsets[0]);
      PressesStayOnGrid(NewAngle(angle, offsets[0]), offsets[1..]);
    }
  }
}
