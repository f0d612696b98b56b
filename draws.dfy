/** The random source of the simulated feeds. Every call to `Math.random()`
    becomes a parameter of the model that satisfies `Unit`. */
module Draws {

  /** A value `Math.random()` can return. */
  predicate Unit(r: real)
  {
    0.0 <= r < 1.0
  }
}
