/** Values the host supplies through `Math.random()`: every draw lies in [0, 1). */
module MathRandom {

  /** A single `Math.random()` draw. */
  predicate Unit(u: real)
  {
    0.0 <= u < 1.0
  }

  /** Scaling a draw by a non-negative extent lands in [0, extent), or on 0 when the extent is 0. */
  lemma ScaledDraw(u: real, extent: real)
    requires Unit(u) && 0.0 <= extent
    ensures 0.0 <= u * extent <= extent
    ensures 0.0 < extent ==> u * extent < extent
  {
  }
}
