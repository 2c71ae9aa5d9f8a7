/** Decimal arithmetic of the back end: BigNumber values are exact rationals (`real`). */
module Decimals {

  // The tolerance of `isEqual`.
  const EPSILON: real := 0.0000001
  // Trade quantities bought with a total are floored to MATCHING_ENGINE_PRECISION (15) decimals.
  const UNITS_PER_ONE: real := 1000000000000000.0
  // At and below this price a budget of EPSILON always buys at least one unit of 10^-15.
  const MAX_SAFE_PRICE: real := 100000000.0

  function Abs(x: real): real { if x < 0.0 then -x else x }

  function Min(x: real, y: real): real { if x < y then x else y }

  predicate IsEqual(x: real, y: real) { Abs(x - y) < EPSILON }

  /** `toFixed(15, ROUND_FLOOR)`. */
  function Floor15(x: real): (r: real)
    ensures r <= x < r + 1.0 / UNITS_PER_ONE
    ensures x >= 0.0 ==> r >= 0.0
  {
    (x * UNITS_PER_ONE).Floor as real / UNITS_PER_ONE
  }

  /** The floor is zero exactly below one unit. */
  lemma Floor15Positive(x: real)
    requires x >= 0.0
    ensures Floor15(x) > 0.0 <==> x * UNITS_PER_ONE >= 1.0
  {
  }

  lemma QuotientTimes(x: real, d: real)
    requires d != 0.0
    ensures (x / d) * d == x
  {
  }

  lemma ProductNonNegative(x: real, y: real)
    requires x >= 0.0 && y >= 0.0
    ensures x * y >= 0.0
  {
  }

  lemma ProductMonotone(x: real, y: real, z: real)
    requires x <= y && z >= 0.0
    ensures x * z <= y * z
  {
  }

  lemma ProductStrict(x: real, y: real, z: real)
    requires x < y && z > 0.0
    ensures x * z < y * z
  {
  }

  lemma QuotientAsProduct(x: real, d: real)
    requires d != 0.0
    ensures (1.0 / d) * x == x / d
  {
    assert (1.0 / d) * d == 1.0;
    assert (x / d) * d == x;
    assert ((1.0 / d) * x) * d == ((1.0 / d) * d) * x;
  }

  lemma QuotientNonNegative(x: real, d: real)
    requires x >= 0.0 && d > 0.0
    ensures x / d >= 0.0
    ensures x > 0.0 ==> x / d > 0.0
  {
  }

  lemma ProductPositive(x: real, y: real)
    requires x > 0.0 && y > 0.0
    ensures x * y > 0.0
  {
  }

  lemma Distribute(x: real, y: real, z: real)
    ensures (x + y) * z == x * z + y * z
    ensures z * (x + y) == z * x + z * y
  {
  }

  lemma Associate(x: real, y: real, z: real)
    ensures (x * y) * z == x * (y * z)
  {
  }

  lemma SameProduct(x: real, y: real, z: real)
    requires z > 0.0 && x * z == y * z
    ensures x == y
  {
    if x < y { ProductStrict(x, y, z); }
    if y < x { ProductStrict(y, x, z); }
  }

  /** Scaling by a positive factor keeps both sides of a threshold apart. */
  lemma ScaledThreshold(x: real, bound: real, z: real)
    requires z > 0.0
    ensures x < bound <==> x * z < bound * z
    ensures x >= 0.0 <==> x * z >= 0.0
  {
    if x < bound { ProductStrict(x, bound, z); } else { ProductMonotone(bound, x, z); }
    if x < 0.0 { ProductStrict(x, 0.0, z); } else { ProductNonNegative(x, z); }
  }
}
