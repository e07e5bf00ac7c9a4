/**
 * The numeric primitives the components call — `Math.sqrt(2)`, `Math.PI`
 * (`np.pi`), `Math.cos`, `Math.sin`, `Math.round` — over exact reals.
 * Square root, pi and the trigonometric functions are not definable on
 * Dafny's reals, so they are passed in as a record whose `Valid` predicate
 * states the only facts the model relies on.
 */
module RealMath {

  datatype Maths = Maths(sqrt2: real, pi: real, cos: real -> real, sin: real -> real) {

    /** The facts assumed of the host's arithmetic. */
    ghost predicate Valid() {
      && sqrt2 > 0.0 && sqrt2 * sqrt2 == 2.0
      && pi > 0.0
      && cos(0.0) == 1.0 && sin(0.0) == 0.0
      && cos(pi) == -1.0 && sin(pi) == 0.0
      && cos(-pi) == -1.0 && sin(-pi) == 0.0
      && forall t :: cos(t) * cos(t) + sin(t) * sin(t) == 1.0
    }
  }

  /**
   * Host arithmetic whose square root of two is positive, so that dividing by
   * it is defined; the remaining facts are in `Valid`.
   */
  type Host = m: Maths | m.sqrt2 > 0.0 witness Maths(1.0, 1.0, t => 1.0, t => 0.0)

  /** `Math.round(x)`: the nearest integer, halves rounded up. */
  function Round(x: real): (n: int)
    ensures n as real - 0.5 <= x < n as real + 0.5
  {
    (x + 0.5).Floor
  }

  /** Rounding an integer gives it back. */
  lemma RoundIntegral(n: int)
    ensures Round(n as real) == n
  {
  }
}
