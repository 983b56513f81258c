/** The sun: plain data describing a light source on a daily cycle. */
module Suns {

  /**
   * `distance` from the world centre in cells, `position` in the movement
   * cycle, `intensity` of the sunlight. There are no operations besides
   * construction.
   */
  datatype Sun = Sun(distance: real, position: real, intensity: real)

  /** The constructor, with its defaults; it stores each argument unchanged. */
  function NewSun(distance: real := 1024.0, position: real := 0.0, intensity: real := 256.0): (s: Sun)
    ensures s.distance == distance && s.position == position && s.intensity == intensity
  {
    Sun(distance, position, intensity)
  }

  /** The position lies within one turn of the cycle. */
  predicate InCycle(s: Sun) {
    0.0 <= s.position < 1.0
  }

  lemma DefaultSun()
    ensures NewSun() == Sun(1024.0, 0.0, 256.0)
    ensures InCycle(NewSun())
  {
  }
}
