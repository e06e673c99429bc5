/** Decimal quantisation as the geocoder writes it, `Math.round(x * 10^d) / 10^d`,
    taken over exact reals (the model does not follow IEEE-754 doubles). */
module Rounding {

  /** The power of ten a value is multiplied by before rounding: 1000 keeps three
      decimals, 10000 keeps four. */
  type Scale = s: int | 0 < s witness 1

  /** JavaScript `Math.round`: the nearest integer, with halves going up (towards
      positive infinity, so -2.5 becomes -2). */
  function RoundHalfUp(y: real): (n: int)
    ensures y - 0.5 < n as real <= y + 0.5
  {
    (y + 0.5).Floor
  }

  /** `x` has no digits beyond the ones `scale` keeps: `x * scale` is an integer. */
  predicate OnGrid(x: real, scale: Scale) {
    GridIndex(x, scale) as real == x * (scale as real)
  }

  /** The number of grid steps of `scale` at or below `x`. */
  function GridIndex(x: real, scale: Scale): int {
    (x * (scale as real)).Floor
  }

  /** `y` is a grid point of `scale` in the half-open window
      (x - 1/(2 scale), x + 1/(2 scale)] around `x`: at most half a step away,
      with an exact half resolved upwards. */
  predicate RoundsTo(x: real, y: real, scale: Scale) {
    && OnGrid(y, scale)
    && x - 0.5 / scale as real < y <= x + 0.5 / scale as real
  }

  /** Rounds `x` to the grid of `scale`. The window of RoundsTo holds exactly one
      grid point (QuantizeUnique), so this contract determines the result. */
  function Quantize(x: real, scale: Scale): (r: real)
    ensures RoundsTo(x, r, scale)
  {
    var n := RoundHalfUp(x * (scale as real));
    var r := n as real / (scale as real);
    IntegerMultipleOnGrid(r, n, scale);
    ScaledBounds(x, r, scale as real);
    r
  }

  /** A value whose multiple by `scale` is an integer lies on the grid. */
  lemma IntegerMultipleOnGrid(r: real, n: int, scale: Scale)
    requires r * (scale as real) == n as real
    ensures OnGrid(r, scale)
  {
  }

  /** A half-open window of width one holds at most one integer. */
  lemma SameIntegerInWindow(m: int, n: int, z: real)
    requires z - 0.5 < m as real <= z + 0.5
    requires z - 0.5 < n as real <= z + 0.5
    ensures m == n
  {
  }

  /** Bounds on `r * s` around `x * s` carry over to bounds on `r` around `x`. */
  lemma ScaledBounds(x: real, r: real, s: real)
    requires 0.0 < s
    requires x * s - 0.5 < r * s <= x * s + 0.5
    ensures x - 0.5 / s < r <= x + 0.5 / s
  {
  }

  /** Bounds on `r` around `x` give bounds on `r * s` around `x * s`. */
  lemma UnscaledBounds(x: real, r: real, s: real)
    requires 0.0 < s
    requires x - 0.5 / s < r <= x + 0.5 / s
    ensures x * s - 0.5 < r * s <= x * s + 0.5
  {
  }

  /** Every grid point within the rounding window of `x` is the rounded value:
      the contract of Quantize determines it completely. */
  lemma QuantizeUnique(x: real, y: real, scale: Scale)
    requires RoundsTo(x, y, scale)
    ensures y == Quantize(x, scale)
  {
    var q := Quantize(x, scale);
    UnscaledBounds(x, y, scale as real);
    UnscaledBounds(x, q, scale as real);
    SameIntegerInWindow(GridIndex(y, scale), GridIndex(q, scale), x * (scale as real));
    assert y * (scale as real) == q * (scale as real);
  }

  /** Rounding leaves a value unchanged exactly when it already lies on the grid. */
  lemma QuantizeFixedPoint(x: real, scale: Scale)
    ensures Quantize(x, scale) == x <==> OnGrid(x, scale)
  {
    if OnGrid(x, scale) {
      QuantizeUnique(x, x, scale);
    }
  }

  /** Rounding twice to the same number of decimals is rounding once. */
  lemma QuantizeIdempotent(x: real, scale: Scale)
    ensures Quantize(Quantize(x, scale), scale) == Quantize(x, scale)
  {
    QuantizeFixedPoint(Quantize(x, scale), scale);
  }

  /** A value with at most the digits of `scale` also lies on every finer grid
      `scale * factor` (three decimals are also four decimals). */
  lemma OnGridRefines(x: real, scale: Scale, factor: Scale)
    requires OnGrid(x, scale)
    ensures OnGrid(x, scale * factor)
  {
    var k := GridIndex(x, scale);
    assert (scale * factor) as real == (scale as real) * (factor as real);
    assert x * ((scale * factor) as real) == (k * factor) as real;
    IntegerMultipleOnGrid(x, k * factor, scale * factor);
  }
}
