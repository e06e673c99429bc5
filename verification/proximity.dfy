/** The proximity filter of the map page: the haversine distance and the
    `filteredProfiles` selection. */
module Proximity {

  import opened Optional
  import opened Geometry
  import opened Sequences
  import opened Profiles

  /** The Earth's radius the distance formula uses, in miles. */
  const EarthRadiusMiles: real := 3959.0

  /** `calculateDistance`: the haversine great-circle distance in miles between
      two points given in degrees. */
  function HaversineMiles(t: Trig, a: LatLng, b: LatLng): real {
    var h := HaversineTerm(t, a, b);
    EarthRadiusMiles * (2.0 * t.atan2(t.sqrt(h), t.sqrt(1.0 - h)))
  }

  /** The difference `to - from` of two angles in degrees, in radians. */
  function DeltaRadians(from: real, to: real): real {
    (to - from) * Pi / 180.0
  }

  /** sin²(d / 2). */
  function SinSqHalf(t: Trig, d: real): real {
    t.sin(d / 2.0) * t.sin(d / 2.0)
  }

  /** The haversine of the central angle, `a` in the source. */
  function HaversineTerm(t: Trig, a: LatLng, b: LatLng): real {
    SinSqHalf(t, DeltaRadians(a.lat, b.lat))
    + t.cos(a.lat * Pi / 180.0) * t.cos(b.lat * Pi / 180.0) * SinSqHalf(t, DeltaRadians(a.lng, b.lng))
  }

  /** A point is at distance zero from itself. */
  lemma HaversineToSelf(t: Trig, a: LatLng)
    requires Anchored(t)
    ensures HaversineMiles(t, a, a) == 0.0
  {
  }

  /** sin²(d / 2) is even in `d` when sin is odd. */
  lemma SinSqHalfEven(t: Trig, d: real)
    requires SinOdd(t)
    ensures SinSqHalf(t, -d) == SinSqHalf(t, d)
  {
  }

  /** The distance does not depend on which point is the reference. */
  lemma HaversineSymmetric(t: Trig, a: LatLng, b: LatLng)
    requires SinOdd(t)
    ensures HaversineMiles(t, a, b) == HaversineMiles(t, b, a)
  {
    assert DeltaRadians(b.lat, a.lat) == -DeltaRadians(a.lat, b.lat);
    assert DeltaRadians(b.lng, a.lng) == -DeltaRadians(a.lng, b.lng);
    SinSqHalfEven(t, DeltaRadians(a.lat, b.lat));
    SinSqHalfEven(t, DeltaRadians(a.lng, b.lng));
    assert HaversineTerm(t, a, b) == HaversineTerm(t, b, a);
  }

  /** The keep test of `filteredProfiles`, written as one condition: truthy
      coordinates, and when a reference point is set, a distance within the
      radius (boundary included). */
  predicate Kept(t: Trig, reference: Option<LatLng>, radius: real, p: Profile) {
    && HasCoordinates(p)
    && (reference.None? || HaversineMiles(t, reference.value, Position(p)) <= radius)
  }

  /** `filteredProfiles`: with a reference point, the profiles with coordinates
      that lie within `radius` miles of it; without one, every profile with
      coordinates. */
  function FilterProfiles(profiles: seq<Profile>, reference: Option<LatLng>, radius: real, t: Trig)
    : (r: seq<Profile>)
    ensures IsSubsequence(r, profiles)
    ensures forall p :: p in r <==> p in profiles && Kept(t, reference, radius, p)
    ensures forall p :: multiset(r)[p] == if Kept(t, reference, radius, p) then multiset(profiles)[p] else 0
    ensures forall p :: p in r ==> HasCoordinates(p)
  {
    match reference
    case Some(ref) =>
      Filter(profiles, (p: Profile) =>
        if !HasCoordinates(p) then false
        else HaversineMiles(t, ref, Position(p)) <= radius)
    case None =>
      Filter(profiles, (p: Profile) => HasCoordinates(p))
  }

  /** A profile at exactly `radius` miles from the reference point is kept. */
  lemma FilterBoundaryInclusive(profiles: seq<Profile>, ref: LatLng, radius: real, t: Trig, p: Profile)
    requires p in profiles && HasCoordinates(p)
    requires HaversineMiles(t, ref, Position(p)) == radius
    ensures p in FilterProfiles(profiles, Some(ref), radius, t)
  {
  }

  /** Without a reference point neither the radius nor the distance function
      matters: the result is the profiles with coordinates. */
  lemma FilterIgnoresRadiusWithoutReference(profiles: seq<Profile>, r1: real, r2: real, t1: Trig, t2: Trig)
    ensures FilterProfiles(profiles, None, r1, t1) == FilterProfiles(profiles, None, r2, t2)
    ensures forall p :: p in FilterProfiles(profiles, None, r1, t1) <==> p in profiles && HasCoordinates(p)
  {
  }

  /** Widening the radius never drops a profile. */
  lemma FilterMonotoneInRadius(profiles: seq<Profile>, reference: Option<LatLng>, r1: real, r2: real, t: Trig)
    requires r1 <= r2
    ensures forall p :: p in FilterProfiles(profiles, reference, r1, t) ==>
                        p in FilterProfiles(profiles, reference, r2, t)
  {
  }
}
