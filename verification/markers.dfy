/** Marker placement on the map page: `createOffsetPosition` and the
    `markersToRender` flat-map, plus the whole filter-group-place pipeline. */
module Markers {

  import opened Optional
  import opened Geometry
  import opened Profiles
  import opened Proximity
  import opened Grouping

  /** The radius, in degrees, of the ring that profiles sharing a point are
      spread onto. */
  const SpreadRadius: real := 0.001

  /** A profile together with the point its marker is drawn at. */
  datatype Marker = Marker(profile: Profile, position: LatLng)

  /** The angle in radians of member `index` of a group of `total`:
      the fraction index/total of a full turn. */
  function SpreadAngle(index: nat, total: nat): (a: real)
    requires index < total
    ensures 0.0 <= a < 2.0 * Pi
    ensures a * total as real == 2.0 * Pi * index as real
  {
    2.0 * Pi * index as real / total as real
  }

  /** `createOffsetPosition`: a lone profile stays where it is; member `index`
      of a larger group moves SpreadRadius degrees out at SpreadAngle. */
  function OffsetPosition(t: Trig, lat: real, lng: real, index: nat, total: nat): (r: LatLng)
    requires index < total
    ensures total == 1 ==> r == LatLng(lat, lng)
  {
    if total == 1 then LatLng(lat, lng)
    else Displace(t, LatLng(lat, lng), SpreadAngle(index, total), SpreadRadius)
  }

  /** In a group of two or more every member is exactly SpreadRadius from the
      shared point. */
  lemma OffsetPositionOnRing(t: Trig, lat: real, lng: real, index: nat, total: nat)
    requires Pythagorean(t)
    requires index < total && 1 < total
    ensures SqDist(OffsetPosition(t, lat, lng, index, total), LatLng(lat, lng)) == SpreadRadius * SpreadRadius
  {
  }

  /** Distinct members get distinct angles, neighbours being a full turn
      divided by the group size apart. */
  lemma SpreadAnglesDistinct(i: nat, j: nat, total: nat)
    requires i < total && j < total
    ensures SpreadAngle(i, total) == SpreadAngle(j, total) <==> i == j
    ensures j == i + 1 ==> SpreadAngle(j, total) - SpreadAngle(i, total) == 2.0 * Pi / total as real
  {
  }

  /** `{ ...profile, position }` for member `index` of a group of `total`. */
  function Place(t: Trig, p: Profile, index: nat, total: nat): (m: Marker)
    requires Located(p) && index < total
    ensures m.profile == p
  {
    Marker(p, OffsetPosition(t, p.latitude.value, p.longitude.value, index, total))
  }

  /** The markers of one group: member `i` of `|members|` placed by
      OffsetPosition at its own stored point. */
  function GroupMarkers(t: Trig, g: Group): (ms: seq<Marker>)
    requires forall p :: p in g.members ==> Located(p)
    ensures |ms| == |g.members|
    ensures forall i :: 0 <= i < |ms| ==> ms[i].profile == g.members[i]
  {
    seq(|g.members|, (i: int) requires 0 <= i < |g.members| =>
      assert g.members[i] in g.members;
      Place(t, g.members[i], i, |g.members|))
  }

  /** `markersToRender`: the markers of every group, group after group. */
  function MarkersToRender(t: Trig, groups: seq<Group>): (ms: seq<Marker>)
    requires forall p :: p in Flatten(groups) ==> Located(p)
    ensures |ms| == |Flatten(groups)|
    ensures forall i :: 0 <= i < |ms| ==> ms[i].profile == Flatten(groups)[i]
  {
    if |groups| == 0 then []
    else GroupMarkers(t, groups[0]) + MarkersToRender(t, groups[1..])
  }

  /** Every marker comes from some member `i` of some group and is placed by
      OffsetPosition with that index and that group's size. */
  lemma {:induction false} MarkerOrigin(t: Trig, groups: seq<Group>, j: nat) returns (gi: nat, i: nat)
    requires forall p :: p in Flatten(groups) ==> Located(p)
    requires j < |MarkersToRender(t, groups)|
    ensures gi < |groups| && i < |groups[gi].members|
    ensures Located(groups[gi].members[i])
    ensures MarkersToRender(t, groups)[j] == Place(t, groups[gi].members[i], i, |groups[gi].members|)
  {
    var head := groups[0].members;
    assert Flatten(groups) == head + Flatten(groups[1..]);
    if j < |head| {
      gi, i := 0, j;
    } else {
      var gi', i' := MarkerOrigin(t, groups[1..], j - |head|);
      gi, i := gi' + 1, i';
    }
  }

  /** Grouping the kept profiles and placing their markers: `markersToRender`
      computed from `filteredProfiles`. */
  function PlaceMarkers(t: Trig, kept: seq<Profile>): (ms: seq<Marker>)
    requires forall p :: p in kept ==> HasCoordinates(p)
    ensures |ms| == |kept|
    ensures multiset(MarkerProfiles(ms)) == multiset(kept)
  {
    GroupedLocated(kept);
    var ms := MarkersToRender(t, GroupByLocation(kept));
    assert MarkerProfiles(ms) == Flatten(GroupByLocation(kept));
    ms
  }

  /** Grouping keeps only input profiles, so they stay located. */
  lemma GroupedLocated(kept: seq<Profile>)
    requires forall p :: p in kept ==> HasCoordinates(p)
    ensures forall p :: p in Flatten(GroupByLocation(kept)) ==> Located(p)
    ensures multiset(Flatten(GroupByLocation(kept))) == multiset(kept)
    ensures |Flatten(GroupByLocation(kept))| == |kept|
  {
    GroupByLocationPermutes(kept);
    forall p | p in Flatten(GroupByLocation(kept))
      ensures Located(p)
    {
      assert p in multiset(Flatten(GroupByLocation(kept)));
      assert p in multiset(kept);
      assert p in kept;
      assert HasCoordinates(p);
    }
  }

  /** The profiles behind the markers, in marker order. */
  function MarkerProfiles(ms: seq<Marker>): (ps: seq<Profile>)
    ensures |ps| == |ms|
    ensures forall i :: 0 <= i < |ms| ==> ps[i] == ms[i].profile
  {
    seq(|ms|, (i: int) requires 0 <= i < |ms| => ms[i].profile)
  }

  /** How many kept profiles share the exact point `k`. */
  function Crowd(kept: seq<Profile>, k: Key): nat {
    |Select(kept, k)|
  }

  /** A kept profile alone at its point is drawn at its stored coordinates;
      one sharing its point with others is drawn exactly SpreadRadius away. */
  lemma PlaceMarkersPositions(t: Trig, kept: seq<Profile>, j: nat)
    requires forall p :: p in kept ==> HasCoordinates(p)
    requires j < |PlaceMarkers(t, kept)|
    ensures var m := PlaceMarkers(t, kept)[j];
            && Located(m.profile)
            && (Crowd(kept, KeyOf(m.profile)) == 1 ==> m.position == Position(m.profile))
            && (Crowd(kept, KeyOf(m.profile)) > 1 && Pythagorean(t) ==>
                  SqDist(m.position, Position(m.profile)) == SpreadRadius * SpreadRadius)
  {
    var groups := GroupByLocation(kept);
    GroupedLocated(kept);
    GroupByLocationSpec(kept);
    var gi, i := MarkerOrigin(t, groups, j);
    var p := groups[gi].members[i];
    var keys := DistinctKeys(kept);
    assert groups[gi].members == Select(kept, keys[gi]);
    assert p in Select(kept, keys[gi]);
    assert KeyOf(p) == keys[gi];
    var total := |groups[gi].members|;
    assert Crowd(kept, KeyOf(p)) == total;
    if total > 1 && Pythagorean(t) {
      OffsetPositionOnRing(t, p.latitude.value, p.longitude.value, i, total);
    }
  }

  /** The whole map pipeline: filter, group by exact point, place markers. One
      marker per kept profile, as the render log line compares. */
  function Render(t: Trig, profiles: seq<Profile>, reference: Option<LatLng>, radius: real): (ms: seq<Marker>)
    ensures |ms| == |FilterProfiles(profiles, reference, radius, t)|
    ensures multiset(MarkerProfiles(ms)) == multiset(FilterProfiles(profiles, reference, radius, t))
  {
    PlaceMarkers(t, FilterProfiles(profiles, reference, radius, t))
  }
}
