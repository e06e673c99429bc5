/** Coordinates in decimal degrees, the constant `Math.PI`, and the trigonometric
    and root functions the map code calls. The functions are not defined here:
    every operation that needs them takes a `Trig` value, and every property that
    depends on what they compute names the law it assumes. */
module Geometry {

  /** A (latitude, longitude) pair in decimal degrees. */
  datatype LatLng = LatLng(lat: real, lng: real)

  /** The decimal JavaScript prints for `Math.PI`, read as an exact real. */
  const Pi: real := 3.141592653589793

  /** `Math.sin`, `Math.cos`, `Math.sqrt` and `Math.atan2`, supplied by the caller. */
  datatype Trig = Trig(
    sin: real -> real,
    cos: real -> real,
    sqrt: real -> real,
    atan2: (real, real) -> real)

  /** sin²(x) + cos²(x) = 1 for every angle. */
  ghost predicate Pythagorean(t: Trig) {
    forall x: real :: t.sin(x) * t.sin(x) + t.cos(x) * t.cos(x) == 1.0
  }

  /** sin is an odd function. */
  ghost predicate SinOdd(t: Trig) {
    forall x: real :: t.sin(-x) == -t.sin(x)
  }

  /** The values at the points the haversine formula reaches for coincident points. */
  predicate Anchored(t: Trig) {
    && t.sin(0.0) == 0.0
    && t.sqrt(0.0) == 0.0
    && t.sqrt(1.0) == 1.0
    && t.atan2(0.0, 1.0) == 0.0
  }

  /** The square of the straight-line distance between two points, in degree space. */
  function SqDist(a: LatLng, b: LatLng): real {
    (a.lat - b.lat) * (a.lat - b.lat) + (a.lng - b.lng) * (a.lng - b.lng)
  }

  /** The point reached from `base` by moving `dist` degrees at `angle` radians,
      the latitude taking the cosine and the longitude the sine. */
  function Displace(t: Trig, base: LatLng, angle: real, dist: real): (r: LatLng)
    ensures dist == 0.0 ==> r == base
  {
    LatLng(base.lat + t.cos(angle) * dist, base.lng + t.sin(angle) * dist)
  }

  /** Moving `dist` at any angle lands exactly `dist` away from the start. */
  lemma DisplaceDistance(t: Trig, base: LatLng, angle: real, dist: real)
    requires Pythagorean(t)
    ensures SqDist(Displace(t, base, angle, dist), base) == dist * dist
  {
  }

  /** Each axis moves by at most `dist`. */
  lemma DisplaceAxisBound(t: Trig, base: LatLng, angle: real, dist: real)
    requires Pythagorean(t)
    requires 0.0 <= dist
    ensures -dist <= Displace(t, base, angle, dist).lat - base.lat <= dist
    ensures -dist <= Displace(t, base, angle, dist).lng - base.lng <= dist
  {
    var c, s := t.cos(angle), t.sin(angle);
    assert s * s + c * c == 1.0;
    UnitBound(c, s);
    UnitBound(s, c);
    ScaledUnitBound(c, dist);
    ScaledUnitBound(s, dist);
  }

  /** A displacement shorter than `bound` stays strictly inside the circle of
      radius `bound`, and neither axis moves by `bound` or more. */
  lemma DisplaceWithin(t: Trig, base: LatLng, angle: real, dist: real, bound: real)
    requires Pythagorean(t)
    requires 0.0 <= dist < bound
    ensures SqDist(Displace(t, base, angle, dist), base) < bound * bound
    ensures -bound < Displace(t, base, angle, dist).lat - base.lat < bound
    ensures -bound < Displace(t, base, angle, dist).lng - base.lng < bound
  {
    DisplaceDistance(t, base, angle, dist);
    DisplaceAxisBound(t, base, angle, dist);
    SquareBelow(dist, bound);
  }

  /** Squaring is strictly increasing on non-negative reals. */
  lemma SquareBelow(a: real, b: real)
    requires 0.0 <= a < b
    ensures a * a < b * b
  {
    var low, mid, high := a * a, a * b, b * b;
    assert low <= mid by {
      assert a * (b - a) >= 0.0;
    }
    assert mid < high by {
      assert b * (b - a) > 0.0;
    }
  }

  /** A coordinate of a point on the unit circle lies in [-1, 1]. */
  lemma UnitBound(a: real, b: real)
    requires a * a + b * b == 1.0
    ensures -1.0 <= a <= 1.0
  {
  }

  lemma ScaledUnitBound(a: real, d: real)
    requires -1.0 <= a <= 1.0
    requires 0.0 <= d
    ensures -d <= a * d <= d
  {
  }
}
