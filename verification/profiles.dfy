/** The stored profile record the map reads, and the coordinate tests the map
    code applies to it. */
module Profiles {

  import opened Optional
  import opened Geometry

  /** One row of the `profiles` table. The coordinates are optional because the
      store may hand back a row without them (`null`). */
  datatype Profile = Profile(
    id: string,
    fullName: string,
    cityOrZip: string,
    latitude: Option<real>,
    longitude: Option<real>,
    contactType: string,
    contactValue: string,
    aboutMe: Option<string>,
    consentToShare: bool,
    createdAt: string,
    userId: string)

  /** JavaScript truthiness of a coordinate: present and not zero. */
  predicate Truthy(v: Option<real>) {
    v.Some? && v.value != 0.0
  }

  /** Both coordinates are truthy, the test both branches of the map filter apply. */
  predicate HasCoordinates(p: Profile) {
    Truthy(p.latitude) && Truthy(p.longitude)
  }

  /** Both coordinates are present (possibly zero). */
  predicate Located(p: Profile) {
    p.latitude.Some? && p.longitude.Some?
  }

  /** The stored point of a located profile. */
  function Position(p: Profile): LatLng
    requires Located(p)
  {
    LatLng(p.latitude.value, p.longitude.value)
  }
}
