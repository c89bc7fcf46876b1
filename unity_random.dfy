/**
 * The values UnityEngine.Random.Range can return. The engine never decides
 * anything from a random number except through these draws, so every draw is
 * a parameter of the operation that makes it, constrained by one of these
 * predicates.
 */
module UnityRandom {

  /**
   * `r` is a possible result of the integer overload Random.Range(lo, hi):
   * a value in [lo, hi), or `lo` itself when the range is empty.
   */
  predicate IntDraw(r: int, lo: int, hi: int)
    requires lo <= hi
  {
    if lo < hi then lo <= r < hi else r == lo
  }

  /** `r` is a possible result of the float overload Random.Range(lo, hi); both bounds are included. */
  predicate FloatDraw(r: real, lo: real, hi: real) {
    lo <= r <= hi
  }
}
