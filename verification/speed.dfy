/** Speed and movement direction of a cell. */
module Speeds {

  /**
   * `value` is the scalar speed; `direction` is the graph neighbour the
   * movement points at, 1 to 8 counterclockwise, 0 meaning no movement.
   */
  datatype Speed = Speed(value: int, direction: int)

  /** The constructor, with its defaults; it stores both arguments unchanged. */
  function NewSpeed(value: int := 0, direction: int := 0): (s: Speed)
    ensures s.value == value && s.direction == direction
  {
    Speed(value, direction)
  }

  /** The shared still speed. */
  const Zero: Speed := NewSpeed(0, 0)

  /** The range the constructor's documentation gives for its arguments. */
  predicate Valid(s: Speed) {
    s.value >= 0 && 0 <= s.direction <= 8
  }

  /** A speed whose direction is 0 does not move. */
  predicate Still(s: Speed) {
    s.direction == 0
  }

  lemma ZeroIsValidAndStill()
    ensures Zero == NewSpeed()
    ensures Zero.value == 0 && Zero.direction == 0
    ensures Valid(Zero) && Still(Zero)
  {
  }
}
