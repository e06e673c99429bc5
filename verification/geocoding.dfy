/** The geocoder: a place name is resolved through an external provider and
    rounded to three decimals, and optionally nudged by a displacement derived
    from the user id and rounded again to four decimals. */
module Geocoding {

  import opened Optional
  import opened Int32
  import opened Rounding
  import opened Geometry

  /** One UTF-16 code unit, the value `charCodeAt` returns. */
  type CodeUnit = c: int | 0 <= c < 0x1_0000

  /** The largest displacement, in degrees, the per-user offset may reach. */
  const MaxOffset: real := 0.005

  /** Three decimals for the looked-up point, four for the offset point. */
  const LookupScale: Scale := 1000
  const OffsetScale: Scale := 10000

  /** Appended to every query so the provider searches the right state. */
  const RegionSuffix: string := ", Indiana, USA"

  // ---------------------------------------------------------------------------
  // The user-id hash

  /** `h << 5`: the operand is wrapped to 32 bits, shifted, and wrapped again. */
  function ShiftLeft5(h: int): (r: int)
    ensures InRange(r)
    ensures (r - 32 * h) % TwoTo32 == 0
  {
    var w := ToInt32(h);
    assert (w * 32 - 32 * h) == 32 * (w - h);
    ToInt32(w * 32)
  }

  /** One turn of the hashing loop: `((h << 5) - h) + c`, then `& itself`, which
      only wraps the value to 32 bits. The shift-and-subtract is multiplication
      by 31 modulo 2^32. */
  function HashStep(h: int, c: CodeUnit): (r: int)
    ensures InRange(r)
    ensures r == ToInt32(31 * h + c)
  {
    assert (ShiftLeft5(h) - h + c) - (31 * h + c) == ShiftLeft5(h) - 32 * h;
    ToInt32Congruent(ShiftLeft5(h) - h + c, 31 * h + c);
    ToInt32(ShiftLeft5(h) - h + c)
  }

  /** The hash of a user id: a left fold of HashStep over its code units, from 0. */
  function Hash(units: seq<CodeUnit>): (h: int)
    ensures InRange(h)
    ensures |units| == 0 ==> h == 0
  {
    if |units| == 0 then 0 else HashStep(Hash(units[..|units| - 1]), units[|units| - 1])
  }

  /** Extending the id by one code unit multiplies the hash by 31, adds the unit,
      and wraps. */
  lemma HashAppend(units: seq<CodeUnit>, c: CodeUnit)
    ensures Hash(units + [c]) == ToInt32(31 * Hash(units) + c)
  {
    assert (units + [c])[..|units|] == units;
  }

  /** The hashing loop as the geocoder runs it over the id. */
  method ComputeHash(userId: seq<CodeUnit>) returns (hash: int)
    ensures hash == Hash(userId)
    ensures InRange(hash)
  {
    hash := 0;
    var i := 0;
    while i < |userId|
      invariant 0 <= i <= |userId|
      invariant hash == Hash(userId[..i])
    {
      assert userId[..i + 1][..i] == userId[..i];
      hash := ToInt32(ShiftLeft5(hash) - hash + userId[i]);
      i := i + 1;
    }
    assert userId[..i] == userId;
  }

  // ---------------------------------------------------------------------------
  // From hash to displacement

  /** `Math.abs(hash)`. JavaScript takes it on a double, so -2^31 becomes 2^31
      without overflowing. */
  function Seed(hash: int): (seed: nat)
    ensures seed == hash || seed == -hash
    ensures InRange(hash) ==> seed <= TwoTo31
    ensures InRange(hash) ==> (seed == TwoTo31 <==> hash == -TwoTo31)
  {
    if hash < 0 then -hash else hash
  }

  /** The offset direction in whole degrees, `seed % 360`. */
  function AngleDegrees(seed: nat): (deg: nat)
    ensures deg < 360
    ensures (seed - deg) % 360 == 0
  {
    seed % 360
  }

  /** The offset length in degrees, `((seed % 1000) / 1000) * 0.005`: one of a
      thousand evenly spaced steps below MaxOffset. */
  function OffsetDistance(seed: nat): (d: real)
    ensures 0.0 <= d < MaxOffset
    ensures d == 0.0 <==> seed % 1000 == 0
  {
    ((seed % 1000) as real / 1000.0) * 0.005
  }

  /** `generateDeterministicOffset`: moves `base` by the distance and angle the
      hash of `userId` selects. */
  function DeterministicOffset(userId: seq<CodeUnit>, base: LatLng, t: Trig): (r: LatLng)
    ensures Seed(Hash(userId)) % 1000 == 0 ==> r == base
  {
    OffsetBySeed(Seed(Hash(userId)), base, t)
  }

  /** An id whose seed is a multiple of 1000 leaves the base point exactly
      where it is, whatever the trigonometric functions return. */
  lemma DeterministicOffsetUnmoved(userId: seq<CodeUnit>, base: LatLng, t: Trig)
    requires Seed(Hash(userId)) % 1000 == 0
    ensures DeterministicOffset(userId, base, t) == base
  {
  }

  /** The empty id hashes to 0, so it is never moved. */
  lemma DeterministicOffsetEmptyId(base: LatLng, t: Trig)
    ensures Hash([]) == 0 && Seed(Hash([])) == 0
    ensures DeterministicOffset([], base, t) == base
  {
  }

  /** The displacement a seed selects: OffsetDistance(seed) degrees at
      OffsetAngle(seed). */
  function OffsetBySeed(seed: nat, base: LatLng, t: Trig): (r: LatLng)
    ensures seed % 1000 == 0 ==> r == base
  {
    Displace(t, base, OffsetAngle(seed), OffsetDistance(seed))
  }

  /** The offset direction in radians, `(seed % 360) * (Math.PI / 180)`. */
  function OffsetAngle(seed: nat): (a: real)
    ensures 0.0 <= a < 2.0 * Pi
  {
    AngleDegrees(seed) as real * (Pi / 180.0)
  }

  /** The displacement a seed selects has length exactly OffsetDistance(seed),
      so it stays strictly inside the MaxOffset circle, and neither axis moves
      by MaxOffset or more. */
  lemma OffsetBySeedWithinRadius(seed: nat, base: LatLng, t: Trig)
    requires Pythagorean(t)
    ensures SqDist(OffsetBySeed(seed, base, t), base) == OffsetDistance(seed) * OffsetDistance(seed)
    ensures SqDist(OffsetBySeed(seed, base, t), base) < MaxOffset * MaxOffset
    ensures -MaxOffset < OffsetBySeed(seed, base, t).lat - base.lat < MaxOffset
    ensures -MaxOffset < OffsetBySeed(seed, base, t).lng - base.lng < MaxOffset
  {
    DisplaceDistance(t, base, OffsetAngle(seed), OffsetDistance(seed));
    DisplaceWithin(t, base, OffsetAngle(seed), OffsetDistance(seed), MaxOffset);
  }

  // ---------------------------------------------------------------------------
  // Lookup

  /** One provider result, with `lat` and `lon` already read as numbers. */
  datatype Candidate = Candidate(lat: real, lon: real)

  /** What the provider call yields: `Failed` stands for a network error or a
      body that is not JSON (both caught and turned into `null`), `Answered` for
      the result array. */
  datatype Response = Failed | Answered(results: seq<Candidate>)

  /** The external geocoding service, as a function of the query text. */
  type Provider = string -> Response

  /** The text sent to the provider: the user's input followed by RegionSuffix. */
  function Qualify(location: string): (q: string)
    ensures |q| == |location| + |RegionSuffix|
    ensures q[..|location|] == location && q[|location|..] == RegionSuffix
  {
    location + RegionSuffix
  }

  /** The response holds at least one result. */
  predicate HasCandidate(resp: Response) {
    resp.Answered? && |resp.results| > 0
  }

  /** `geocodeLocation`: `null` when the call fails or returns nothing; otherwise
      the first result, each axis rounded to three decimals. */
  function Geocode(location: string, provider: Provider): (r: Option<LatLng>)
    ensures r.None? <==> !HasCandidate(provider(Qualify(location)))
    ensures r.Some? ==>
              var first := provider(Qualify(location)).results[0];
              && RoundsTo(first.lat, r.value.lat, LookupScale)
              && RoundsTo(first.lon, r.value.lng, LookupScale)
  {
    var resp := provider(Qualify(location));
    if HasCandidate(resp) then
      var first := resp.results[0];
      Some(LatLng(Quantize(first.lat, LookupScale), Quantize(first.lon, LookupScale)))
    else
      None
  }

  /** Only the first result counts: two providers that agree on it for this
      query give the same answer, whatever else they return. */
  lemma GeocodeUsesFirstResultOnly(location: string, p1: Provider, p2: Provider)
    requires HasCandidate(p1(Qualify(location))) && HasCandidate(p2(Qualify(location)))
    requires p1(Qualify(location)).results[0] == p2(Qualify(location)).results[0]
    ensures Geocode(location, p1) == Geocode(location, p2)
  {
  }

  /** A looked-up point is already on the three-decimal grid: rounding it again
      changes neither axis. */
  lemma GeocodeStable(location: string, provider: Provider)
    requires Geocode(location, provider).Some?
    ensures var p := Geocode(location, provider).value;
            Quantize(p.lat, LookupScale) == p.lat && Quantize(p.lng, LookupScale) == p.lng
  {
    var p := Geocode(location, provider).value;
    QuantizeFixedPoint(p.lat, LookupScale);
    QuantizeFixedPoint(p.lng, LookupScale);
  }

  /** `geocodeLocationWithOffset`: `null` whenever the lookup is; otherwise the
      looked-up point moved by DeterministicOffset and rounded to four decimals. */
  function GeocodeWithOffset(location: string, userId: seq<CodeUnit>, provider: Provider, t: Trig)
    : (r: Option<LatLng>)
    ensures r.None? <==> Geocode(location, provider).None?
    ensures r.Some? ==>
              var moved := DeterministicOffset(userId, Geocode(location, provider).value, t);
              && RoundsTo(moved.lat, r.value.lat, OffsetScale)
              && RoundsTo(moved.lng, r.value.lng, OffsetScale)
  {
    match Geocode(location, provider)
    case None => None
    case Some(base) =>
      var moved := DeterministicOffset(userId, base, t);
      Some(LatLng(Quantize(moved.lat, OffsetScale), Quantize(moved.lng, OffsetScale)))
  }

  /** The stored point stays within MaxOffset plus half a four-decimal step of
      the looked-up point on each axis. */
  lemma GeocodeWithOffsetNear(location: string, userId: seq<CodeUnit>, provider: Provider, t: Trig)
    requires Pythagorean(t)
    requires Geocode(location, provider).Some?
    ensures var base, r := Geocode(location, provider).value,
                           GeocodeWithOffset(location, userId, provider, t).value;
            && -(MaxOffset + 0.00005) < r.lat - base.lat < MaxOffset + 0.00005
            && -(MaxOffset + 0.00005) < r.lng - base.lng < MaxOffset + 0.00005
  {
    var base := Geocode(location, provider).value;
    OffsetBySeedWithinRadius(Seed(Hash(userId)), base, t);
  }

  /** An id whose seed is a multiple of 1000 (the empty id among them) is not
      moved at all: the four-decimal rounding of a three-decimal point is the
      point itself, so the result is exactly the plain lookup. */
  lemma GeocodeWithOffsetUnmoved(location: string, userId: seq<CodeUnit>, provider: Provider, t: Trig)
    requires Seed(Hash(userId)) % 1000 == 0
    ensures GeocodeWithOffset(location, userId, provider, t) == Geocode(location, provider)
  {
    if Geocode(location, provider).Some? {
      var base := Geocode(location, provider).value;
      DeterministicOffsetUnmoved(userId, base, t);
      assert OffsetScale == LookupScale * 10;
      OnGridRefines(base.lat, LookupScale, 10);
      OnGridRefines(base.lng, LookupScale, 10);
      QuantizeFixedPoint(base.lat, OffsetScale);
      QuantizeFixedPoint(base.lng, OffsetScale);
    }
  }
}
