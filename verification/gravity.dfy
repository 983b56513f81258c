/** A source of gravity. Its constructor keeps none of its arguments. */
module Gravities {

  /** A gravity source carries no data. */
  datatype Gravity = Gravity

  /** The constructor, with its defaults; the arguments are discarded. */
  function NewGravity(coordinates: (real, real) := (0.0, 0.0), force: real := 1.0): (g: Gravity)
    ensures g == Gravity
  {
    Gravity
  }
}
